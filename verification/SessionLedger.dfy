/**
 Accounts for a session's tokens by task, step and day. Transcript lines come parsed: who wrote each, when, the unit
 its prompt names, the usage it reports and the Rekall calls on it.
 */
module SessionLedger {
  import opened Numbers
  import opened Options
  import opened Sequences

  type Instant = int // microseconds

  datatype WorkUnit = WorkUnit(project: Option<string>, task: string, step: Option<string>) {
    function OnStep(s: Option<string>): WorkUnit { this.(step := s) }
    predicate SameTask(other: WorkUnit) { project == other.project && task == other.task }
  }

  datatype Tokens = Tokens(input: nat, output: nat, cacheCreation: nat, cacheRead: nat) {
    function Plus(t: Tokens): Tokens {
      Tokens(input + t.input, output + t.output, cacheCreation + t.cacheCreation, cacheRead + t.cacheRead)
    }
    predicate AtMost(t: Tokens) {
      input <= t.input && output <= t.output && cacheCreation <= t.cacheCreation && cacheRead <= t.cacheRead
    }
  }

  const ZERO := Tokens(0, 0, 0, 0)

  /** A Rekall tool call: the project and the one task its anchors name, the state it gives, trimmed and lower-cased, and the step. */
  datatype ToolCall = ToolCall(tool: string, project: Option<string>, task: Option<string>, state: Option<string>, step: Option<string>)

  datatype Message = Message(id: Option<string>, usage: Option<Tokens>)

  datatype Kind = User | Assistant | Other

  datatype Line = Line(kind: Kind, sidechain: bool, at: Option<Instant>, prompt: Option<WorkUnit>, message: Option<Message>, calls: seq<ToolCall>)

  /** One item of the account: who pays, if anyone does, when it was incurred if that is known, and how much. */
  datatype Charge = Charge(unit: Option<WorkUnit>, at: Option<Instant>, tokens: Tokens)

  function Largest(a: Tokens, b: Tokens): (r: Tokens)
    ensures a.AtMost(r) && b.AtMost(r)
    ensures forall t: Tokens :: a.AtMost(t) && b.AtMost(t) ==> r.AtMost(t)
  {
    Tokens(Max(a.input, b.input), Max(a.output, b.output), Max(a.cacheCreation, b.cacheCreation), Max(a.cacheRead, b.cacheRead))
  }

  // ------------------------------------------------------------------ where the session is

  /** Naming the current task alone does not leave the current step. */
  function Continued(current: Option<WorkUnit>, unit: WorkUnit): WorkUnit {
    if current.Some? && unit.step.None? && current.value.SameTask(unit) then current.value else unit
  }

  /** The unit a call puts the session on; none for a call that puts it on nothing. */
  function AfterCall(current: Option<WorkUnit>, call: ToolCall): Option<WorkUnit> {
    if call.task.None? then None
    else
      var task := WorkUnit(call.project, call.task.value, None);
      if call.tool == "rekall_context" then Some(Continued(current, task))
      else if call.tool == "rekall_step" && call.state.Some? then
        if call.state.value == "running" then Some(task.OnStep(call.step))
        else if call.state.value == "claimed" || call.state.value == "open" then Some(task)
        else None
      else None
  }

  ghost predicate OnTask(unit: Option<WorkUnit>, project: Option<string>, task: string) {
    exists step :: unit == Some(WorkUnit(project, task, step))
  }

  /**
   Where a call leads. A step taken up is where the session is; a step claimed or reopened leaves it on the task alone; and asking
   for the context of another task moves it there. Everything else leaves it where it is.
   */
  ghost predicate CallLeads(before: Option<WorkUnit>, call: ToolCall, after: Option<WorkUnit>) {
    && (Takes(call, "running") ==> after == Some(WorkUnit(call.project, call.task.value, call.step)))
    && (Takes(call, "claimed") || Takes(call, "open") ==> after == Some(WorkUnit(call.project, call.task.value, None)))
    && (Asks(call) && !OnTask(before, call.project, call.task.value) ==> after == Some(WorkUnit(call.project, call.task.value, None)))
    && (Asks(call) && OnTask(before, call.project, call.task.value) ==> after == before)
    && (!CallMoves(call) ==> after == before)
  }

  ghost predicate Takes(call: ToolCall, state: string) {
    call.task.Some? && call.tool == "rekall_step" && call.state == Some(state)
  }

  ghost predicate Asks(call: ToolCall) {
    call.task.Some? && call.tool == "rekall_context"
  }

  ghost predicate CallMoves(call: ToolCall) {
    Takes(call, "running") || Takes(call, "claimed") || Takes(call, "open") || Asks(call)
  }

  /** The calls lead, one after the other, from `before` to `after`. */
  ghost predicate CallsLead(before: Option<WorkUnit>, calls: seq<ToolCall>, after: Option<WorkUnit>, trail: seq<Option<WorkUnit>>) {
    && |trail| == |calls| + 1 && trail[0] == before && trail[|calls|] == after
    && forall k :: 0 <= k < |calls| ==> CallLeads(trail[k], calls[k], trail[k + 1])
  }

  /** Where a line leads: a prompt to what it names, unless that is the task the session is on; a reply where its calls lead. */
  ghost predicate LineLeads(before: Option<WorkUnit>, line: Line, after: Option<WorkUnit>) {
    if line.sidechain then after == before
    else
      match line.kind
      case User =>
        && (line.prompt.None? ==> after == before)
        && (line.prompt.Some? && line.prompt.value.step.None? && OnTask(before, line.prompt.value.project, line.prompt.value.task) ==> after == before)
        && (line.prompt.Some? && !(line.prompt.value.step.None? && OnTask(before, line.prompt.value.project, line.prompt.value.task)) ==>
              after == line.prompt)
      case Assistant => exists trail :: CallsLead(before, line.calls, after, trail)
      case Other => after == before
  }

  lemma ContinuedLeads(current: Option<WorkUnit>, unit: WorkUnit)
    ensures unit.step.None? && OnTask(current, unit.project, unit.task) ==> Some(Continued(current, unit)) == current
    ensures !(unit.step.None? && OnTask(current, unit.project, unit.task)) ==> Continued(current, unit) == unit
  {
    if current.Some? && current.value.project == unit.project && current.value.task == unit.task {
      assert current == Some(WorkUnit(unit.project, unit.task, current.value.step));
    }
  }

  lemma AfterCallLeads(current: Option<WorkUnit>, call: ToolCall)
    ensures var next := AfterCall(current, call); CallLeads(current, call, if next.Some? then next else current)
  {
    if call.task.Some? {
      ContinuedLeads(current, WorkUnit(call.project, call.task.value, None));
    }
  }

  lemma OneCallMore(first: Option<WorkUnit>, calls: seq<ToolCall>, before: Option<WorkUnit>, trail: seq<Option<WorkUnit>>, call: ToolCall, after: Option<WorkUnit>)
    requires CallsLead(first, calls, before, trail) && CallLeads(before, call, after)
    ensures CallsLead(first, calls + [call], after, trail + [after])
  {
    var calls', trail' := calls + [call], trail + [after];
    forall k | 0 <= k < |calls'| ensures CallLeads(trail'[k], calls'[k], trail'[k + 1]) {
      if k < |calls| {
        assert CallLeads(trail[k], calls[k], trail[k + 1]);
      }
    }
  }

  /** Where the last call that moves the session leads is where the session is after the line, whatever calls follow. */
  lemma LastMovingCallDecides(before: Option<WorkUnit>, calls: seq<ToolCall>, after: Option<WorkUnit>, trail: seq<Option<WorkUnit>>, m: nat)
    requires CallsLead(before, calls, after, trail) && m < |calls|
    requires forall k :: m < k < |calls| ==> !CallMoves(calls[k])
    ensures after == trail[m + 1] && CallLeads(trail[m], calls[m], after)
    ensures Takes(calls[m], "running") ==> after == Some(WorkUnit(calls[m].project, calls[m].task.value, calls[m].step))
    ensures Takes(calls[m], "claimed") || Takes(calls[m], "open") ==> after == Some(WorkUnit(calls[m].project, calls[m].task.value, None))
  {
    NothingMoves(calls, trail, m + 1);
  }

  lemma {:induction false} NothingMoves(calls: seq<ToolCall>, trail: seq<Option<WorkUnit>>, n: nat)
    requires |trail| == |calls| + 1 && n <= |calls|
    requires forall k :: 0 <= k < |calls| ==> CallLeads(trail[k], calls[k], trail[k + 1])
    requires forall k :: n <= k < |calls| ==> !CallMoves(calls[k])
    ensures trail[n] == trail[|calls|]
    decreases |calls| - n
  {
    if n < |calls| {
      assert CallLeads(trail[n], calls[n], trail[n + 1]);
      NothingMoves(calls, trail, n + 1);
    }
  }

  /** The last move at or before `at`. */
  function UnitAt(moves: seq<(Instant, WorkUnit)>, at: Instant): Option<WorkUnit> {
    if moves == [] then None
    else
      var (moved, unit) := moves[|moves| - 1];
      if moved <= at then Some(unit) else UnitAt(moves[..|moves| - 1], at)
  }

  /** What one main line did to the session's whereabouts: its stamp, and the units it went through. */
  datatype Station = Station(at: Option<Instant>, units: seq<WorkUnit>)

  /** The unit the session is on after these lines. */
  ghost function UnitAfter(stations: seq<Station>): Option<WorkUnit> {
    if stations == [] then None
    else
      var last := stations[|stations| - 1];
      if last.units != [] then Some(last.units[|last.units| - 1]) else UnitAfter(stations[..|stations| - 1])
  }

  ghost function Stamped(at: Instant, units: seq<WorkUnit>): (r: seq<(Instant, WorkUnit)>)
    ensures |r| == |units| && forall k :: 0 <= k < |r| ==> r[k] == (at, units[k])
  {
    seq(|units|, k requires 0 <= k < |units| => (at, units[k]))
  }

  ghost function MovesOf(stations: seq<Station>): seq<(Instant, WorkUnit)> {
    if stations == [] then []
    else
      var last := stations[|stations| - 1];
      MovesOf(stations[..|stations| - 1]) + if last.at.Some? then Stamped(last.at.value, last.units) else []
  }

  /** How many lines it takes to reach the last one stamped at or before `at`. */
  ghost function LinesBy(stations: seq<Station>, at: Instant): (n: nat)
    ensures n <= |stations|
    ensures n > 0 ==> stations[n - 1].at.Some? && stations[n - 1].at.value <= at
    ensures forall k :: n <= k < |stations| && stations[k].at.Some? ==> stations[k].at.value > at
  {
    if stations == [] then 0
    else
      var last := stations[|stations| - 1];
      if last.at.Some? && last.at.value <= at then |stations| else LinesBy(stations[..|stations| - 1], at)
  }

  /** Every line that moves the session is stamped, and stamps do not decrease. */
  ghost predicate Orderly(stations: seq<Station>) {
    && (forall k :: 0 <= k < |stations| && stations[k].units != [] ==> stations[k].at.Some?)
    && (forall j, k :: 0 <= j < k < |stations| && stations[j].at.Some? && stations[k].at.Some? ==> stations[j].at.value <= stations[k].at.value)
  }

  lemma OneMoreStation(stations: seq<Station>, last: Station)
    ensures UnitAfter(stations + [last]) == if last.units == [] then UnitAfter(stations) else Some(last.units[|last.units| - 1])
    ensures MovesOf(stations + [last]) == MovesOf(stations) + if last.at.Some? then Stamped(last.at.value, last.units) else []
  {
    assert (stations + [last])[..|stations|] == stations;
  }

  lemma {:induction false} UnitAtSkipsLater(moves: seq<(Instant, WorkUnit)>, later: seq<(Instant, WorkUnit)>, at: Instant)
    requires forall k :: 0 <= k < |later| ==> later[k].0 > at
    ensures UnitAt(moves + later, at) == UnitAt(moves, at)
  {
    if later == [] {
      assert moves + later == moves;
    } else {
      var front := later[..|later| - 1];
      assert (moves + later)[..|moves + later| - 1] == moves + front;
      UnitAtSkipsLater(moves, front, at);
    }
  }

  /** Lines stamped after `at`, or not at all, do not count for it. */
  lemma {:induction false} UnitAtCountsLinesBy(stations: seq<Station>, at: Instant)
    ensures UnitAt(MovesOf(stations), at) == UnitAt(MovesOf(stations[..LinesBy(stations, at)]), at)
  {
    if LinesBy(stations, at) == |stations| {
      assert stations[..|stations|] == stations;
    } else {
      var front, last := stations[..|stations| - 1], stations[|stations| - 1];
      UnitAtCountsLinesBy(front, at);
      assert stations[..LinesBy(stations, at)] == front[..LinesBy(front, at)];
      if last.at.Some? {
        UnitAtSkipsLater(MovesOf(front), Stamped(last.at.value, last.units), at);
      } else {
        assert MovesOf(stations) == MovesOf(front);
      }
    }
  }

  /** The last line that moves the session. */
  ghost function LastMoving(stations: seq<Station>): (m: Option<nat>)
    ensures m.Some? ==> m.value < |stations| && stations[m.value].units != []
    ensures m.Some? ==> forall k :: m.value < k < |stations| ==> stations[k].units == []
    ensures m.None? ==> forall k :: 0 <= k < |stations| ==> stations[k].units == []
  {
    if stations == [] then None
    else if stations[|stations| - 1].units != [] then Some(|stations| - 1)
    else LastMoving(stations[..|stations| - 1])
  }

  ghost function LastUnit(s: Station): WorkUnit
    requires s.units != []
  {
    s.units[|s.units| - 1]
  }

  ghost predicate StampedBy(s: Station, at: Instant) {
    s.at.Some? && s.at.value <= at
  }

  lemma UnitAtTheLastMove(front: seq<Station>, last: Station, at: Instant)
    requires last.units != []
    ensures UnitAt(MovesOf(front + [last]), at) == if StampedBy(last, at) then Some(LastUnit(last)) else UnitAt(MovesOf(front), at)
  {
    OneMoreStation(front, last);
    if last.at.Some? {
      if last.at.value > at {
        UnitAtSkipsLater(MovesOf(front), Stamped(last.at.value, last.units), at);
      }
    } else {
      assert MovesOf(front + [last]) == MovesOf(front);
    }
  }

  /** After its last move a session stays where it is, by either way of knowing. */
  lemma {:induction false} NothingMovesAfter(stations: seq<Station>, n: nat)
    requires n <= |stations| && forall k :: n <= k < |stations| ==> stations[k].units == []
    ensures UnitAfter(stations) == UnitAfter(stations[..n]) && MovesOf(stations) == MovesOf(stations[..n])
  {
    if n == |stations| {
      assert stations[..n] == stations;
    } else {
      var front, last := stations[..|stations| - 1], stations[|stations| - 1];
      NothingMovesAfter(front, n);
      assert front[..n] == stations[..n] && stations == front + [last];
      OneMoreStation(front, last);
    }
  }

  /**
   Exactly when the two ways of knowing the unit agree at `at`, for any transcript, where `seen` is the session up to its last line
   stamped by then: nothing moved it, or its last move is stamped by then, or the moves
   stamped by then before that one happen to end on the same unit.
   */
  ghost predicate AgreesAt(seen: seq<Station>, at: Instant) {
    var m := LastMoving(seen);
    || m.None?
    || StampedBy(seen[m.value], at)
    || UnitAt(MovesOf(seen[..m.value]), at) == Some(LastUnit(seen[m.value]))
  }

  lemma UnitAtAgreesExactlyWhen(stations: seq<Station>, at: Instant)
    ensures var seen := stations[..LinesBy(stations, at)];
            UnitAt(MovesOf(stations), at) == UnitAfter(seen) <==> AgreesAt(seen, at)
  {
    UnitAtCountsLinesBy(stations, at);
    SeenAgreesExactlyWhen(stations[..LinesBy(stations, at)], at);
  }

  lemma SeenAgreesExactlyWhen(seen: seq<Station>, at: Instant)
    ensures UnitAt(MovesOf(seen), at) == UnitAfter(seen) <==> AgreesAt(seen, at)
  {
    var m := LastMoving(seen);
    if m.None? {
      NothingMovesAfter(seen, 0);
      assert seen[..0] == [];
    } else {
      LastMoveDecides(seen, m.value, at);
    }
  }

  lemma LastMoveDecides(seen: seq<Station>, m: nat, at: Instant)
    requires m < |seen| && seen[m].units != [] && forall k :: m < k < |seen| ==> seen[k].units == []
    ensures UnitAfter(seen) == Some(LastUnit(seen[m]))
    ensures UnitAt(MovesOf(seen), at) == if StampedBy(seen[m], at) then Some(LastUnit(seen[m])) else UnitAt(MovesOf(seen[..m]), at)
  {
    NothingMovesAfter(seen, m + 1);
    assert seen[..m + 1] == seen[..m] + [seen[m]];
    OneMoreStation(seen[..m], seen[m]);
    UnitAtTheLastMove(seen[..m], seen[m], at);
  }

  /** With every move stamped at or before `at`, the last one is where the session is. */
  lemma UnitAtIsCurrent(stations: seq<Station>, at: Instant)
    requires forall k :: 0 <= k < |stations| && stations[k].units != [] ==> StampedBy(stations[k], at)
    ensures UnitAt(MovesOf(stations), at) == UnitAfter(stations)
  {
    SeenAgreesExactlyWhen(stations, at);
  }

  /**
   What a subagent's call is charged to, by its time alone, is the unit the session was on after its last line stamped
   at or before that time.
   */
  lemma UnitAtIsTheUnitThen(stations: seq<Station>, at: Instant)
    requires Orderly(stations)
    ensures UnitAt(MovesOf(stations), at) == UnitAfter(stations[..LinesBy(stations, at)])
  {
    UnitAtAgreesExactlyWhen(stations, at);
  }

  /** Without the order of stamps the two disagree: a late line stamped early hides the move before it. */
  lemma DisorderedStampsDisagree()
    ensures exists stations: seq<Station>, at ::
              && (forall k :: 0 <= k < |stations| && stations[k].units != [] ==> stations[k].at.Some?)
              && UnitAt(MovesOf(stations), at) != UnitAfter(stations[..LinesBy(stations, at)])
  {
    var a, b := WorkUnit(None, "a", None), WorkUnit(None, "b", None);
    var s1 := [Station(Some(10), [a])];
    var s2 := s1 + [Station(Some(20), [b])];
    var s3 := s2 + [Station(Some(15), [])];
    assert s3[..2] == s2 && s2[..1] == s1 && s1[..0] == [];
    assert MovesOf(s1) == [(10, a)];
    assert MovesOf(s2) == [(10, a), (20, b)];
    assert MovesOf(s3) == MovesOf(s2);
    UnitAtSkipsLater([(10, a)], [(20, b)], 15);
    assert [(10, a)] + [(20, b)] == MovesOf(s2);
    assert UnitAt(MovesOf(s3), 15) == Some(a);
    assert LinesBy(s3, 15) == 3 && s3[..3] == s3;
    assert UnitAfter(s3) == UnitAfter(s2) == Some(b);
  }

  // ------------------------------------------------------------------ what is charged

  /** One line that reported usage, and the unit it was charged to. */
  datatype Bill = Bill(id: Option<string>, unit: Option<WorkUnit>, at: Option<Instant>, tokens: Tokens)

  ghost predicate Names(bills: seq<Bill>, id: string, k: int) {
    0 <= k < |bills| && bills[k].id == Some(id)
  }

  /** The unit and time of the message's first line. */
  ghost predicate FromFirst(c: Charge, bills: seq<Bill>, id: string) {
    exists k :: Names(bills, id, k) && (forall j :: Names(bills, id, j) ==> k <= j) && c.unit == bills[k].unit && c.at == bills[k].at
  }

  /** The largest of each count over the message's lines, and no larger. */
  ghost predicate IsPeak(tokens: Tokens, bills: seq<Bill>, id: string) {
    && (forall k :: Names(bills, id, k) ==>
          && bills[k].tokens.input <= tokens.input && bills[k].tokens.output <= tokens.output
          && bills[k].tokens.cacheCreation <= tokens.cacheCreation && bills[k].tokens.cacheRead <= tokens.cacheRead)
    && (exists k :: Names(bills, id, k) && bills[k].tokens.input == tokens.input)
    && (exists k :: Names(bills, id, k) && bills[k].tokens.output == tokens.output)
    && (exists k :: Names(bills, id, k) && bills[k].tokens.cacheCreation == tokens.cacheCreation)
    && (exists k :: Names(bills, id, k) && bills[k].tokens.cacheRead == tokens.cacheRead)
  }

  ghost function UnnamedOf(bills: seq<Bill>): seq<Charge> {
    if bills == [] then []
    else
      var last := bills[|bills| - 1];
      UnnamedOf(bills[..|bills| - 1]) + if last.id.None? then [Charge(last.unit, last.at, last.tokens)] else []
  }

  /** Every message once, with its first line's unit and time and the largest of each count; every unnamed line for itself. */
  ghost predicate Accounts(messages: map<string, Charge>, unnamed: seq<Charge>, bills: seq<Bill>) {
    && (forall id :: id in messages <==> exists k :: Names(bills, id, k))
    && (forall id :: id in messages ==> FromFirst(messages[id], bills, id) && IsPeak(messages[id].tokens, bills, id))
    && unnamed == UnnamedOf(bills)
  }

  /** A message's charge is the only one its lines allow. */
  lemma AccountIsDetermined(c: Charge, d: Charge, bills: seq<Bill>, id: string)
    requires FromFirst(c, bills, id) && IsPeak(c.tokens, bills, id)
    requires FromFirst(d, bills, id) && IsPeak(d.tokens, bills, id)
    ensures c == d
  {
  }

  lemma NamesOneMore(bills: seq<Bill>, b: Bill, id: string)
    ensures forall k :: Names(bills + [b], id, k) <==> Names(bills, id, k) || (k == |bills| && b.id == Some(id))
    ensures forall k :: Names(bills, id, k) ==> Names(bills + [b], id, k) && (bills + [b])[k] == bills[k]
  {
  }

  lemma FirstLineCounts(bills: seq<Bill>, b: Bill, id: string)
    requires b.id == Some(id) && forall k :: !Names(bills, id, k)
    ensures FromFirst(Charge(b.unit, b.at, b.tokens), bills + [b], id) && IsPeak(b.tokens, bills + [b], id)
  {
    NamesOneMore(bills, b, id);
    var more := bills + [b];
    assert Names(more, id, |bills|) && more[|bills|] == b;
  }

  lemma FirstStaysFirst(c: Charge, bills: seq<Bill>, b: Bill, id: string)
    requires FromFirst(c, bills, id)
    ensures FromFirst(c, bills + [b], id)
  {
    NamesOneMore(bills, b, id);
    var k :| Names(bills, id, k) && (forall j :: Names(bills, id, j) ==> k <= j) && c.unit == bills[k].unit && c.at == bills[k].at;
    assert Names(bills + [b], id, k);
  }

  lemma OtherLineKeepsThePeak(tokens: Tokens, bills: seq<Bill>, b: Bill, id: string)
    requires IsPeak(tokens, bills, id) && b.id != Some(id)
    ensures IsPeak(tokens, bills + [b], id)
  {
    NamesOneMore(bills, b, id);
    var more := bills + [b];
    var i :| Names(bills, id, i) && bills[i].tokens.input == tokens.input;
    var o :| Names(bills, id, o) && bills[o].tokens.output == tokens.output;
    var c :| Names(bills, id, c) && bills[c].tokens.cacheCreation == tokens.cacheCreation;
    var r :| Names(bills, id, r) && bills[r].tokens.cacheRead == tokens.cacheRead;
    assert Names(more, id, i) && Names(more, id, o) && Names(more, id, c) && Names(more, id, r);
  }

  lemma LaterLineRaisesThePeak(tokens: Tokens, bills: seq<Bill>, b: Bill, id: string)
    requires IsPeak(tokens, bills, id) && b.id == Some(id)
    ensures IsPeak(Largest(tokens, b.tokens), bills + [b], id)
  {
    NamesOneMore(bills, b, id);
    var more, peak := bills + [b], Largest(tokens, b.tokens);
    var i :| Names(bills, id, i) && bills[i].tokens.input == tokens.input;
    var o :| Names(bills, id, o) && bills[o].tokens.output == tokens.output;
    var c :| Names(bills, id, c) && bills[c].tokens.cacheCreation == tokens.cacheCreation;
    var r :| Names(bills, id, r) && bills[r].tokens.cacheRead == tokens.cacheRead;
    assert Names(more, id, i) && Names(more, id, o) && Names(more, id, c) && Names(more, id, r);
    assert Names(more, id, |bills|) && more[|bills|] == b;
    forall k | Names(more, id, k) ensures more[k].tokens.AtMost(peak) {
      if k < |bills| {
        assert bills[k].tokens.AtMost(tokens) && tokens.AtMost(peak);
      }
    }
  }

  /** The charges once `b` is read, as `charge` enters it. */
  function Entered(messages: map<string, Charge>, b: Bill): map<string, Charge> {
    if b.id.None? then messages
    else if b.id.value in messages then
      var known := messages[b.id.value];
      messages[b.id.value := known.(tokens := Largest(known.tokens, b.tokens))]
    else messages[b.id.value := Charge(b.unit, b.at, b.tokens)]
  }

  lemma EnteringKeepsIds(messages: map<string, Charge>, bills: seq<Bill>, b: Bill, id: string)
    requires id in messages <==> exists k :: Names(bills, id, k)
    ensures id in Entered(messages, b) <==> exists k :: Names(bills + [b], id, k)
  {
    NamesOneMore(bills, b, id);
    assert b.id == Some(id) ==> Names(bills + [b], id, |bills|);
    if id in messages {
      var k :| Names(bills, id, k);
      assert Names(bills + [b], id, k);
    }
  }

  lemma EnteringKeepsCharge(messages: map<string, Charge>, bills: seq<Bill>, b: Bill, id: string)
    requires id in messages <==> exists k :: Names(bills, id, k)
    requires id in messages ==> FromFirst(messages[id], bills, id) && IsPeak(messages[id].tokens, bills, id)
    requires id in Entered(messages, b)
    ensures var c := Entered(messages, b)[id]; FromFirst(c, bills + [b], id) && IsPeak(c.tokens, bills + [b], id)
  {
    if id !in messages {
      FirstLineCounts(bills, b, id);
    } else {
      FirstStaysFirst(messages[id], bills, b, id);
      if b.id == Some(id) {
        LaterLineRaisesThePeak(messages[id].tokens, bills, b, id);
        FirstStaysFirst(Entered(messages, b)[id], bills, b, id);
      } else {
        OtherLineKeepsThePeak(messages[id].tokens, bills, b, id);
      }
    }
  }

  lemma EnteringKeepsAccounts(messages: map<string, Charge>, unnamed: seq<Charge>, bills: seq<Bill>, b: Bill)
    requires Accounts(messages, unnamed, bills)
    ensures Accounts(Entered(messages, b), if b.id.None? then unnamed + [Charge(b.unit, b.at, b.tokens)] else unnamed, bills + [b])
  {
    assert (bills + [b])[..|bills|] == bills;
    forall id ensures id in Entered(messages, b) <==> exists k :: Names(bills + [b], id, k) {
      EnteringKeepsIds(messages, bills, b, id);
    }
    forall id | id in Entered(messages, b)
      ensures FromFirst(Entered(messages, b)[id], bills + [b], id) && IsPeak(Entered(messages, b)[id].tokens, bills + [b], id)
    {
      EnteringKeepsCharge(messages, bills, b, id);
    }
  }

  // ------------------------------------------------------------------ the ledger

  class Ledger {
    var current: Option<WorkUnit>
    var moves: seq<(Instant, WorkUnit)>
    var messages: map<string, Charge>
    var unnamed: seq<Charge>
    /** The session's own lines, and every line charged, in the order they were read. */
    ghost var stations: seq<Station>
    ghost var bills: seq<Bill>

    ghost predicate Valid()
      reads this
    {
      && current == UnitAfter(stations) && moves == MovesOf(stations)
      && Accounts(messages, unnamed, bills)
    }

    constructor ()
      ensures Valid() && stations == [] && bills == []
    {
      current, moves, messages, unnamed := None, [], map[], [];
      stations, bills := [], [];
    }

    /** Enter the usage a line reports, once per message. */
    method ChargeTo(line: Line, unit: Option<WorkUnit>)
      requires Accounts(messages, unnamed, bills)
      modifies this`messages, this`unnamed, this`bills
      ensures Accounts(messages, unnamed, bills)
      ensures bills == old(bills) + BillsOf(line, unit)
    {
      if line.message.None? || line.message.value.usage.None? {
        return;
      }
      var tokens, id := line.message.value.usage.value, line.message.value.id;
      EnteringKeepsAccounts(messages, unnamed, bills, Bill(id, unit, line.at, tokens));
      if id.None? {
        unnamed := unnamed + [Charge(unit, line.at, tokens)];
      } else {
        messages := Entered(messages, Bill(id, unit, line.at, tokens));
      }
      bills := bills + [Bill(id, unit, line.at, tokens)];
    }

    /** A main line: first paid for by the unit the session is on, then followed to where it goes. */
    method ReadLine(line: Line)
      requires Valid()
      modifies this
      ensures Valid() && |stations| == |old(stations)| + 1 && stations[..|old(stations)|] == old(stations)
      ensures stations[|old(stations)|].at == line.at
      ensures bills == old(bills) + if line.kind.Assistant? then BillsOf(line, UnitAfter(old(stations))) else []
      ensures LineLeads(old(current), line, current)
    {
      if line.kind.Assistant? {
        ChargeTo(line, current);
      }
      ghost var units := Follow(line);
      Arrive(Station(line.at, units));
    }

    ghost method Arrive(last: Station)
      requires current == if last.units == [] then UnitAfter(stations) else Some(last.units[|last.units| - 1])
      requires moves == MovesOf(stations) + if last.at.Some? then Stamped(last.at.value, last.units) else []
      modifies this`stations
      ensures stations == old(stations) + [last] && current == UnitAfter(stations) && moves == MovesOf(stations)
    {
      OneMoreStation(stations, last);
      stations := stations + [last];
    }

    /** The prompt of a line, or the calls on it, move the session; a sidechain's do not. */
    method Follow(line: Line) returns (ghost units: seq<WorkUnit>)
      modifies this`current, this`moves
      ensures LineLeads(old(current), line, current)
      ensures moves == old(moves) + if line.at.Some? then Stamped(line.at.value, units) else []
      ensures current == if units == [] then old(current) else Some(units[|units| - 1])
    {
      units := [];
      if line.kind.User? && !line.sidechain && line.prompt.Some? {
        ContinuedLeads(current, line.prompt.value);
        var unit := Continued(current, line.prompt.value);
        MoveTo(line.at, unit);
        units := [unit];
      } else if line.kind.Assistant? && !line.sidechain {
        units := FollowCalls(line);
      }
    }

    method MoveTo(at: Option<Instant>, unit: WorkUnit)
      modifies this`current, this`moves
      ensures current == Some(unit)
      ensures moves == old(moves) + if at.Some? then [(at.value, unit)] else []
    {
      if at.Some? {
        moves := moves + [(at.value, unit)];
      }
      current := Some(unit);
    }

    /** Each call in turn moves the session from where the one before left it. */
    method FollowCalls(line: Line) returns (ghost units: seq<WorkUnit>)
      modifies this`current, this`moves
      ensures exists trail :: CallsLead(old(current), line.calls, current, trail)
      ensures moves == old(moves) + if line.at.Some? then Stamped(line.at.value, units) else []
      ensures current == if units == [] then old(current) else Some(units[|units| - 1])
    {
      units := [];
      ghost var trail := [current];
      for k := 0 to |line.calls|
        invariant CallsLead(old(current), line.calls[..k], current, trail)
        invariant moves == old(moves) + if line.at.Some? then Stamped(line.at.value, units) else []
        invariant current == if units == [] then old(current) else Some(units[|units| - 1])
      {
        AfterCallLeads(current, line.calls[k]);
        ghost var before := current;
        var next := AfterCall(current, line.calls[k]);
        if next.Some? {
          MoveTo(line.at, next.value);
          units := units + [next.value];
        }
        OneCallMore(old(current), line.calls[..k], before, trail, line.calls[k], current);
        assert line.calls[..k] + [line.calls[k]] == line.calls[..k + 1];
        trail := trail + [current];
      }
      assert line.calls[..|line.calls|] == line.calls;
    }

    /** A subagent's line, paid for by the unit its stamp points to. */
    method ReadSubagentLine(line: Line)
      requires Valid()
      modifies this`messages, this`unnamed, this`bills
      ensures Valid()
      ensures !line.kind.Assistant? ==> bills == old(bills)
      ensures line.kind.Assistant? && line.at.None? ==> bills == old(bills) + BillsOf(line, None)
      ensures line.kind.Assistant? && line.at.Some? ==>
                && bills == old(bills) + BillsOf(line, UnitAt(MovesOf(stations), line.at.value))
                && (Orderly(stations) || AgreesAt(stations[..LinesBy(stations, line.at.value)], line.at.value) ==>
                      bills == old(bills) + BillsOf(line, UnitAfter(stations[..LinesBy(stations, line.at.value)])))
    {
      if line.kind.Assistant? {
        var unit := if line.at.Some? then UnitAt(moves, line.at.value) else None;
        ChargeTo(line, unit);
        if line.at.Some? {
          UnitAtAgreesExactlyWhen(stations, line.at.value);
          if Orderly(stations) {
            UnitAtIsTheUnitThen(stations, line.at.value);
          }
        }
      }
    }
  }

  /** What a line adds to the bill, charged to `unit`. */
  ghost function BillsOf(line: Line, unit: Option<WorkUnit>): seq<Bill> {
    if line.message.Some? && line.message.value.usage.Some? then
      [Bill(line.message.value.id, unit, line.at, line.message.value.usage.value)]
    else []
  }

  // ------------------------------------------------------------------ what was spent

  const DAY: int := 86_400_000_000

  /** Instants of one UTC day share their start, by which they are grouped. */
  function StartOfDay(at: Instant): (day: Instant)
    ensures day <= at < day + DAY && day % DAY == 0
  {
    at - at % DAY
  }

  datatype UnitUsage = UnitUsage(unit: WorkUnit, day: Option<Instant>, tokens: Tokens)

  function DayOf(at: Option<Instant>): (day: Option<Instant>)
    ensures day.Some? <==> at.Some?
    ensures at.Some? ==> day.value <= at.value < day.value + 86_400_000_000 && day.value % 86_400_000_000 == 0
  {
    if at.Some? then Some(StartOfDay(at.value)) else None
  }

  predicate IsFor(c: Charge, unit: WorkUnit, day: Option<Instant>) {
    c.unit == Some(unit) && DayOf(c.at) == day
  }

  /** What is due from a unit for a day. */
  ghost function SumFor(charged: seq<Charge>, unit: WorkUnit, day: Option<Instant>): Tokens {
    if charged == [] then ZERO
    else
      var last := charged[|charged| - 1];
      var before := SumFor(charged[..|charged| - 1], unit, day);
      if IsFor(last, unit, day) then before.Plus(last.tokens) else before
  }

  /** The tokens charged to any unit. */
  ghost function SumCharged(charged: seq<Charge>): Tokens {
    if charged == [] then ZERO
    else
      var last := charged[|charged| - 1];
      var before := SumCharged(charged[..|charged| - 1]);
      if last.unit.Some? then before.Plus(last.tokens) else before
  }

  ghost function SumSpent(spent: seq<UnitUsage>): Tokens {
    if spent == [] then ZERO else SumSpent(spent[..|spent| - 1]).Plus(spent[|spent| - 1].tokens)
  }

  /** No two entries share unit and day, and each holds the sum of what is due from its own. */
  ghost predicate EntriesAdd(spent: seq<UnitUsage>, charged: seq<Charge>) {
    && (forall j, k :: 0 <= j < k < |spent| ==> spent[j].unit != spent[k].unit || spent[j].day != spent[k].day)
    && (forall k :: 0 <= k < |spent| ==> spent[k].tokens == SumFor(charged, spent[k].unit, spent[k].day))
  }

  /** An entry for every charge to a unit, and a charge for every entry. */
  ghost predicate EntriesCover(spent: seq<UnitUsage>, charged: seq<Charge>) {
    && (forall k :: 0 <= k < |charged| && charged[k].unit.Some? ==> HasEntry(spent, charged[k].unit.value, DayOf(charged[k].at)))
    && (forall k :: 0 <= k < |spent| ==> HasCharge(charged, spent[k].unit, spent[k].day))
  }

  ghost predicate Balances(spent: seq<UnitUsage>, charged: seq<Charge>) {
    EntriesAdd(spent, charged) && EntriesCover(spent, charged) && SumSpent(spent) == SumCharged(charged)
  }

  ghost predicate HasCharge(charged: seq<Charge>, unit: WorkUnit, day: Option<Instant>) {
    exists j :: 0 <= j < |charged| && IsFor(charged[j], unit, day)
  }

  ghost predicate HasEntry(spent: seq<UnitUsage>, unit: WorkUnit, day: Option<Instant>) {
    exists k :: 0 <= k < |spent| && spent[k].unit == unit && spent[k].day == day
  }

  lemma {:induction false} SumForNobody(charged: seq<Charge>, unit: WorkUnit, day: Option<Instant>)
    requires forall k :: 0 <= k < |charged| ==> !IsFor(charged[k], unit, day)
    ensures SumFor(charged, unit, day) == ZERO
  {
    if charged != [] {
      SumForNobody(charged[..|charged| - 1], unit, day);
    }
  }

  lemma {:induction false} SumSpentRaised(spent: seq<UnitUsage>, at: nat, tokens: Tokens)
    requires at < |spent|
    ensures SumSpent(spent[at := spent[at].(tokens := spent[at].tokens.Plus(tokens))]) == SumSpent(spent).Plus(tokens)
  {
    var raised := spent[at := spent[at].(tokens := spent[at].tokens.Plus(tokens))];
    var last := |spent| - 1;
    if at == last {
      assert raised[..last] == spent[..last];
    } else {
      assert raised[..last] == spent[..last][at := raised[at]];
      SumSpentRaised(spent[..last], at, tokens);
    }
  }

  lemma SumsWithOneMore(charged: seq<Charge>, c: Charge, unit: WorkUnit, day: Option<Instant>)
    ensures SumFor(charged + [c], unit, day) == if IsFor(c, unit, day) then SumFor(charged, unit, day).Plus(c.tokens) else SumFor(charged, unit, day)
    ensures SumCharged(charged + [c]) == if c.unit.Some? then SumCharged(charged).Plus(c.tokens) else SumCharged(charged)
  {
    assert (charged + [c])[..|charged|] == charged;
  }

  /** A charge to no unit is in nobody's sum. */
  lemma UnchargedBalances(spent: seq<UnitUsage>, charged: seq<Charge>, c: Charge)
    requires Balances(spent, charged) && c.unit.None?
    ensures Balances(spent, charged + [c])
  {
    var more := charged + [c];
    assert forall k :: 0 <= k < |charged| ==> more[k] == charged[k];
    forall k | 0 <= k < |spent| ensures spent[k].tokens == SumFor(more, spent[k].unit, spent[k].day)
                                ensures HasCharge(more, spent[k].unit, spent[k].day) {
      SumsWithOneMore(charged, c, spent[k].unit, spent[k].day);
      assert HasCharge(charged, spent[k].unit, spent[k].day);
      var j :| 0 <= j < |charged| && IsFor(charged[j], spent[k].unit, spent[k].day);
      assert IsFor(more[j], spent[k].unit, spent[k].day);
    }
    SumsWithOneMore(charged, c, WorkUnit(None, "", None), None);
  }

  lemma RaisedCovers(spent: seq<UnitUsage>, charged: seq<Charge>, c: Charge, at: nat, tokens: Tokens)
    requires EntriesCover(spent, charged) && at < |spent| && IsFor(c, spent[at].unit, spent[at].day)
    ensures EntriesCover(spent[at := spent[at].(tokens := tokens)], charged + [c])
  {
    var raised, more := spent[at := spent[at].(tokens := tokens)], charged + [c];
    assert more[|charged|] == c && forall k :: 0 <= k < |charged| ==> more[k] == charged[k];
    forall k | 0 <= k < |raised| ensures HasCharge(more, raised[k].unit, raised[k].day) {
      assert HasCharge(charged, spent[k].unit, spent[k].day);
      var j :| 0 <= j < |charged| && IsFor(charged[j], spent[k].unit, spent[k].day);
      assert IsFor(more[j], raised[k].unit, raised[k].day);
    }
    forall k | 0 <= k < |more| && more[k].unit.Some? ensures HasEntry(raised, more[k].unit.value, DayOf(more[k].at)) {
      if k == |charged| {
        assert raised[at].unit == spent[at].unit;
      } else {
        var j :| 0 <= j < |spent| && spent[j].unit == charged[k].unit.value && spent[j].day == DayOf(charged[k].at);
        assert raised[j].unit == spent[j].unit && raised[j].day == spent[j].day;
      }
    }
  }

  /** The entry of the charge's unit and day takes its tokens. */
  lemma RaisedBalances(spent: seq<UnitUsage>, charged: seq<Charge>, c: Charge, at: nat)
    requires Balances(spent, charged) && at < |spent| && IsFor(c, spent[at].unit, spent[at].day)
    ensures Balances(spent[at := spent[at].(tokens := spent[at].tokens.Plus(c.tokens))], charged + [c])
  {
    RaisedCovers(spent, charged, c, at, spent[at].tokens.Plus(c.tokens));
    SumSpentRaised(spent, at, c.tokens);
    forall k | 0 <= k < |spent| {
      SumsWithOneMore(charged, c, spent[k].unit, spent[k].day);
    }
  }

  /** A charge to a unit and day with no entry gets one of its own. */
  lemma PushedBalances(spent: seq<UnitUsage>, charged: seq<Charge>, c: Charge)
    requires Balances(spent, charged) && c.unit.Some? && !HasEntry(spent, c.unit.value, DayOf(c.at))
    ensures Balances(spent + [UnitUsage(c.unit.value, DayOf(c.at), c.tokens)], charged + [c])
  {
    PushedAdds(spent, charged, c);
    PushedCovers(spent, charged, c);
    SumsWithOneMore(charged, c, c.unit.value, DayOf(c.at));
    assert (spent + [UnitUsage(c.unit.value, DayOf(c.at), c.tokens)])[..|spent|] == spent;
  }

  lemma PushedAdds(spent: seq<UnitUsage>, charged: seq<Charge>, c: Charge)
    requires EntriesAdd(spent, charged) && EntriesCover(spent, charged) && c.unit.Some? && !HasEntry(spent, c.unit.value, DayOf(c.at))
    ensures EntriesAdd(spent + [UnitUsage(c.unit.value, DayOf(c.at), c.tokens)], charged + [c])
  {
    var pushed := spent + [UnitUsage(c.unit.value, DayOf(c.at), c.tokens)];
    forall k | 0 <= k < |pushed| ensures pushed[k].tokens == SumFor(charged + [c], pushed[k].unit, pushed[k].day) {
      SumsWithOneMore(charged, c, pushed[k].unit, pushed[k].day);
      if k == |spent| {
        SumForNobody(charged, c.unit.value, DayOf(c.at));
      }
    }
  }

  lemma PushedCovers(spent: seq<UnitUsage>, charged: seq<Charge>, c: Charge)
    requires EntriesCover(spent, charged) && c.unit.Some?
    ensures EntriesCover(spent + [UnitUsage(c.unit.value, DayOf(c.at), c.tokens)], charged + [c])
  {
    var pushed, more := spent + [UnitUsage(c.unit.value, DayOf(c.at), c.tokens)], charged + [c];
    assert more[|charged|] == c && forall k :: 0 <= k < |charged| ==> more[k] == charged[k];
    forall k | 0 <= k < |pushed| ensures HasCharge(more, pushed[k].unit, pushed[k].day) {
      if k == |spent| {
        assert IsFor(more[|charged|], pushed[k].unit, pushed[k].day);
      } else {
        assert HasCharge(charged, spent[k].unit, spent[k].day);
        var j :| 0 <= j < |charged| && IsFor(charged[j], spent[k].unit, spent[k].day);
        assert IsFor(more[j], pushed[k].unit, pushed[k].day);
      }
    }
    forall k | 0 <= k < |more| && more[k].unit.Some? ensures HasEntry(pushed, more[k].unit.value, DayOf(more[k].at)) {
      if k == |charged| {
        assert pushed[|spent|].unit == c.unit.value;
      } else {
        var j :| 0 <= j < |spent| && spent[j].unit == charged[k].unit.value && spent[j].day == DayOf(charged[k].at);
        assert pushed[j] == spent[j];
      }
    }
  }

  method Add(spent: seq<UnitUsage>, c: Charge, ghost charged: seq<Charge>) returns (r: seq<UnitUsage>)
    requires Balances(spent, charged)
    ensures Balances(r, charged + [c])
  {
    if c.unit.None? {
      UnchargedBalances(spent, charged, c);
      return spent;
    }
    var unit, day := c.unit.value, DayOf(c.at);
    for k := 0 to |spent|
      invariant forall j :: 0 <= j < k ==> spent[j].unit != unit || spent[j].day != day
    {
      if spent[k].unit == unit && spent[k].day == day {
        RaisedBalances(spent, charged, c, k);
        return spent[k := spent[k].(tokens := spent[k].tokens.Plus(c.tokens))];
      }
    }
    PushedBalances(spent, charged, c);
    r := spent + [UnitUsage(unit, day, c.tokens)];
  }

  /** `ids` lists the messages, each once. */
  ghost predicate Enumerates(ids: seq<string>, messages: map<string, Charge>) {
    && (forall k :: 0 <= k < |ids| ==> ids[k] in messages)
    && (forall j, k :: 0 <= j < k < |ids| ==> ids[j] != ids[k])
    && (forall id :: id in messages ==> id in ids)
  }

  ghost function ChargesOf(ids: seq<string>, messages: map<string, Charge>): (r: seq<Charge>)
    requires forall k :: 0 <= k < |ids| ==> ids[k] in messages
    ensures |r| == |ids|
  {
    seq(|ids|, k requires 0 <= k < |ids| => messages[ids[k]])
  }

  /** The messages' charges in whatever order the map gives them. */
  method Values(messages: map<string, Charge>) returns (charges: seq<Charge>)
    ensures exists ids :: Enumerates(ids, messages) && charges == ChargesOf(ids, messages)
  {
    charges := [];
    ghost var ids: seq<string> := [];
    var left := messages.Keys;
    while left != {}
      invariant left <= messages.Keys
      invariant forall k :: 0 <= k < |ids| ==> ids[k] in messages && ids[k] !in left
      invariant forall j, k :: 0 <= j < k < |ids| ==> ids[j] != ids[k]
      invariant forall id :: id in messages && id !in left ==> id in ids
      invariant charges == ChargesOf(ids, messages)
      decreases left
    {
      var id :| id in left;
      charges, ids, left := charges + [messages[id]], ids + [id], left - {id};
    }
  }

  /** `spent` balances the charges of every message, each once, and of the unnamed lines. */
  ghost predicate Tallies(spent: seq<UnitUsage>, messages: map<string, Charge>, unnamed: seq<Charge>) {
    exists ids :: Enumerates(ids, messages) && Balances(spent, ChargesOf(ids, messages) + unnamed)
  }

  /** `spent`: what a ledger's charges come to, in whatever order they are taken. */
  method Spent(ledger: Ledger) returns (spent: seq<UnitUsage>)
    requires ledger.Valid()
    ensures Tallies(spent, ledger.messages, ledger.unnamed)
    ensures InKeyOrder(spent)
  {
    var charges := Values(ledger.messages);
    var unsorted := AddAll(charges + ledger.unnamed);
    spent := Sort(unsorted, charges + ledger.unnamed);
    SortedIsInKeyOrder(spent);
  }

  method AddAll(charges: seq<Charge>) returns (spent: seq<UnitUsage>)
    ensures Balances(spent, charges)
  {
    spent := [];
    for k := 0 to |charges|
      invariant Balances(spent, charges[..k])
    {
      spent := Add(spent, charges[k], charges[..k]);
      assert charges[..k] + [charges[k]] == charges[..k + 1];
    }
    assert charges[..|charges|] == charges;
  }

  /** One kind of token, summed over what is charged to any unit. */
  ghost function Total(charged: seq<Charge>, kind: Tokens -> nat): nat {
    if charged == [] then 0
    else
      var last := charged[|charged| - 1];
      Total(charged[..|charged| - 1], kind) + if last.unit.Some? then kind(last.tokens) else 0
  }

  /** Totals are sums, kind by kind. */
  lemma {:induction false} TotalsAreSums(charged: seq<Charge>)
    ensures SumCharged(charged).input == Total(charged, (t: Tokens) => t.input)
    ensures SumCharged(charged).output == Total(charged, (t: Tokens) => t.output)
    ensures SumCharged(charged).cacheCreation == Total(charged, (t: Tokens) => t.cacheCreation)
    ensures SumCharged(charged).cacheRead == Total(charged, (t: Tokens) => t.cacheRead)
  {
    if charged != [] {
      TotalsAreSums(charged[..|charged| - 1]);
    }
  }

  // ------------------------------------------------------------------ the order of the entries

  predicate TextLe(a: string, b: string) {
    if a == "" then true
    else if b == "" then false
    else if a[0] == b[0] then TextLe(a[1..], b[1..])
    else a[0] < b[0]
  }

  lemma {:induction false} TextIsOrdered(a: string, b: string)
    ensures TextLe(a, b) || TextLe(b, a)
    ensures TextLe(a, b) && TextLe(b, a) ==> a == b
  {
    if a != "" && b != "" && a[0] == b[0] {
      TextIsOrdered(a[1..], b[1..]);
      assert a == [a[0]] + a[1..] && b == [b[0]] + b[1..];
    }
  }

  lemma {:induction false} TextLeOn(a: string, b: string, c: string)
    requires TextLe(a, b) && TextLe(b, c)
    ensures TextLe(a, c)
  {
    if a != "" && a[0] == b[0] == c[0] {
      TextLeOn(a[1..], b[1..], c[1..]);
    }
  }

  /** `a` is a start of `b`, or has the smaller character where they first differ. */
  ghost predicate InTextOrder(a: string, b: string) {
    exists k :: 0 <= k <= |a| && k <= |b| && a[..k] == b[..k] && (k == |a| || (k < |b| && a[k] < b[k]))
  }

  lemma {:induction false} TextLeIsTextOrder(a: string, b: string)
    requires TextLe(a, b)
    ensures InTextOrder(a, b)
  {
    if a == "" || a[0] != b[0] {
      assert a[..0] == b[..0];
    } else {
      TextLeIsTextOrder(a[1..], b[1..]);
      var k :| 0 <= k <= |a[1..]| && k <= |b[1..]| && a[1..][..k] == b[1..][..k] && (k == |a[1..]| || (k < |b[1..]| && a[1..][k] < b[1..][k]));
      assert a[..k + 1] == [a[0]] + a[1..][..k] && b[..k + 1] == [b[0]] + b[1..][..k];
    }
  }

  /** Tasks in order; of one task, the entry without a step first and then its steps in order; of one step, likewise its days. */
  ghost predicate InKeyOrder(spent: seq<UnitUsage>) {
    forall i, j :: 0 <= i < j < |spent| ==>
      var a, b := spent[i], spent[j];
      && InTextOrder(a.unit.task, b.unit.task)
      && (a.unit.task == b.unit.task && b.unit.step.None? ==> a.unit.step.None?)
      && (a.unit.task == b.unit.task && a.unit.step.Some? ==> b.unit.step.Some? && InTextOrder(a.unit.step.value, b.unit.step.value))
      && (a.unit.task == b.unit.task && a.unit.step == b.unit.step && b.day.None? ==> a.day.None?)
      && (a.unit.task == b.unit.task && a.unit.step == b.unit.step && a.day.Some? ==> b.day.Some? && a.day.value <= b.day.value)
  }

  lemma TextOrderIsReflexive(a: string)
    ensures InTextOrder(a, a)
  {
    assert a[..|a|] == a[..|a|];
  }

  lemma SortedIsInKeyOrder(spent: seq<UnitUsage>)
    requires Sorted(spent, |spent|)
    ensures InKeyOrder(spent)
  {
    forall i, j | 0 <= i < j < |spent|
      ensures InTextOrder(spent[i].unit.task, spent[j].unit.task)
      ensures spent[i].unit.task == spent[j].unit.task && spent[i].unit.step.Some? ==>
                spent[j].unit.step.Some? && InTextOrder(spent[i].unit.step.value, spent[j].unit.step.value)
    {
      var a, b := spent[i].unit, spent[j].unit;
      assert EntryLe(spent[i], spent[j]);
      TextOrderIsReflexive(a.task);
      if a.task != b.task {
        TextLeIsTextOrder(a.task, b.task);
      } else if a.step.Some? {
        TextOrderIsReflexive(a.step.value);
        if a.step != b.step {
          TextLeIsTextOrder(a.step.value, b.step.value);
        }
      }
    }
  }

  /** A unit without a step comes before those with one, and a charge without a time before those with one. */
  predicate StepLe(a: Option<string>, b: Option<string>) {
    a.None? || (b.Some? && TextLe(a.value, b.value))
  }

  predicate DayLe(a: Option<Instant>, b: Option<Instant>) {
    a.None? || (b.Some? && a.value <= b.value)
  }

  /** By task, then by step, then by day. */
  predicate EntryLe(a: UnitUsage, b: UnitUsage) {
    if a.unit.task != b.unit.task then TextLe(a.unit.task, b.unit.task)
    else if a.unit.step != b.unit.step then StepLe(a.unit.step, b.unit.step)
    else DayLe(a.day, b.day)
  }

  lemma EntriesAreOrdered(a: UnitUsage, b: UnitUsage)
    ensures EntryLe(a, b) || EntryLe(b, a)
  {
    TextIsOrdered(a.unit.task, b.unit.task);
    if a.unit.step.Some? && b.unit.step.Some? {
      TextIsOrdered(a.unit.step.value, b.unit.step.value);
    }
  }

  lemma StepLeOn(a: Option<string>, b: Option<string>, c: Option<string>)
    requires StepLe(a, b) && StepLe(b, c)
    ensures StepLe(a, c) && (a == c ==> a == b)
  {
    if a.Some? {
      TextLeOn(a.value, b.value, c.value);
      TextIsOrdered(a.value, b.value);
    }
  }

  lemma EntryLeOn(a: UnitUsage, b: UnitUsage, c: UnitUsage)
    requires EntryLe(a, b) && EntryLe(b, c)
    ensures EntryLe(a, c)
  {
    TextIsOrdered(a.unit.task, b.unit.task);
    if TextLe(a.unit.task, b.unit.task) && TextLe(b.unit.task, c.unit.task) {
      TextLeOn(a.unit.task, b.unit.task, c.unit.task);
    }
    if StepLe(a.unit.step, b.unit.step) && StepLe(b.unit.step, c.unit.step) {
      StepLeOn(a.unit.step, b.unit.step, c.unit.step);
    }
  }

  ghost predicate Sorted(spent: seq<UnitUsage>, n: nat)
    requires n <= |spent|
  {
    forall i, j :: 0 <= i < j < n ==> EntryLe(spent[i], spent[j])
  }

  /** The entry at `from` moved up to `to`. */
  function Moved(spent: seq<UnitUsage>, from: nat, to: nat): (r: seq<UnitUsage>)
    requires to <= from < |spent|
    ensures |r| == |spent|
    ensures forall k :: 0 <= k < |r| ==> r[k] == spent[WasAt(from, to, k)]
  {
    seq(|spent|, k requires 0 <= k < |spent| => spent[WasAt(from, to, k)])
  }

  function WasAt(from: nat, to: nat, k: nat): nat {
    if k < to || k > from then k else if k == to then from else k - 1
  }

  function NowAt(from: nat, to: nat, k: nat): nat {
    if k < to || k > from then k else if k == from then to else k + 1
  }

  lemma {:induction false} SumSpentWithout(spent: seq<UnitUsage>, at: nat)
    requires at < |spent|
    ensures SumSpent(spent) == SumSpent(Without(spent, at)).Plus(spent[at].tokens)
  {
    var last := |spent| - 1;
    if at == last {
      assert Without(spent, at) == spent[..last];
    } else {
      SumSpentWithout(spent[..last], at);
      assert Without(spent, at)[..last - 1] == Without(spent[..last], at);
    }
  }

  lemma MovedSums(spent: seq<UnitUsage>, from: nat, to: nat)
    requires to <= from < |spent|
    ensures SumSpent(Moved(spent, from, to)) == SumSpent(spent)
  {
    SumSpentWithout(spent, from);
    SumSpentWithout(Moved(spent, from, to), to);
    MovedIsTheSameWithout(spent, from, to);
  }

  lemma MovedIsTheSameWithout(spent: seq<UnitUsage>, from: nat, to: nat)
    requires to <= from < |spent|
    ensures Without(Moved(spent, from, to), to) == Without(spent, from)
  {
    var a, b := Without(Moved(spent, from, to), to), Without(spent, from);
    forall k | 0 <= k < |a| ensures a[k] == b[k] {
      assert a[k] == spent[WasAt(from, to, if k < to then k else k + 1)];
    }
  }

  lemma MovedCovers(spent: seq<UnitUsage>, charged: seq<Charge>, from: nat, to: nat)
    requires EntriesCover(spent, charged) && to <= from < |spent|
    ensures EntriesCover(Moved(spent, from, to), charged)
  {
    var moved := Moved(spent, from, to);
    forall k | 0 <= k < |charged| && charged[k].unit.Some? ensures HasEntry(moved, charged[k].unit.value, DayOf(charged[k].at)) {
      var j :| 0 <= j < |spent| && spent[j].unit == charged[k].unit.value && spent[j].day == DayOf(charged[k].at);
      var now := NowAt(from, to, j);
      assert WasAt(from, to, now) == j && moved[now] == spent[j];
    }
    forall k | 0 <= k < |moved| ensures HasCharge(charged, moved[k].unit, moved[k].day) {
      var was := WasAt(from, to, k);
      assert moved[k] == spent[was];
      assert HasCharge(charged, spent[was].unit, spent[was].day);
      var j :| 0 <= j < |charged| && IsFor(charged[j], spent[was].unit, spent[was].day);
    }
  }

  lemma MovedBalances(spent: seq<UnitUsage>, charged: seq<Charge>, from: nat, to: nat)
    requires Balances(spent, charged) && to <= from < |spent|
    ensures Balances(Moved(spent, from, to), charged)
  {
    MovedSums(spent, from, to);
    MovedCovers(spent, charged, from, to);
    var moved := Moved(spent, from, to);
    forall j, k | 0 <= j < k < |moved| ensures moved[j].unit != moved[k].unit || moved[j].day != moved[k].day {
      var j', k' := WasAt(from, to, j), WasAt(from, to, k);
      assert j' < k' || k' < j';
    }
  }

  lemma MovedIsSorted(spent: seq<UnitUsage>, from: nat, to: nat)
    requires to <= from < |spent| && Sorted(spent, from)
    requires forall k :: 0 <= k < to ==> EntryLe(spent[k], spent[from])
    requires to < from ==> !EntryLe(spent[to], spent[from])
    ensures Sorted(Moved(spent, from, to), from + 1)
  {
    var moved := Moved(spent, from, to);
    forall k | to <= k < from ensures EntryLe(spent[from], spent[k]) {
      EntriesAreOrdered(spent[to], spent[from]);
      if to < k {
        EntryLeOn(spent[from], spent[to], spent[k]);
      }
    }
  }

  /** Each entry in turn is moved up to its place among those before it. */
  method Sort(unsorted: seq<UnitUsage>, ghost charged: seq<Charge>) returns (spent: seq<UnitUsage>)
    requires Balances(unsorted, charged)
    ensures Balances(spent, charged) && Sorted(spent, |spent|)
  {
    spent := unsorted;
    for k := 0 to |unsorted|
      invariant |spent| == |unsorted| && Balances(spent, charged) && Sorted(spent, k)
    {
      var to := PlaceOf(spent, k);
      MovedBalances(spent, charged, k, to);
      MovedIsSorted(spent, k, to);
      spent := Moved(spent, k, to);
    }
  }

  method PlaceOf(spent: seq<UnitUsage>, k: nat) returns (to: nat)
    requires k < |spent|
    ensures to <= k && (forall j :: 0 <= j < to ==> EntryLe(spent[j], spent[k]))
    ensures to < k ==> !EntryLe(spent[to], spent[k])
  {
    to := 0;
    while to < k && EntryLe(spent[to], spent[k])
      invariant to <= k && forall j :: 0 <= j < to ==> EntryLe(spent[j], spent[k])
    {
      to := to + 1;
    }
  }

  // ------------------------------------------------------------------ the order of the messages does not matter

  lemma SumOfConcatAndOne(a: seq<Charge>, b: seq<Charge>, c: Charge, unit: WorkUnit, day: Option<Instant>)
    requires SumFor(a + b, unit, day) == SumFor(a, unit, day).Plus(SumFor(b, unit, day))
    ensures SumFor((a + b) + [c], unit, day) == SumFor(a, unit, day).Plus(SumFor(b + [c], unit, day))
  {
    SumsWithOneMore(b, c, unit, day);
    SumsWithOneMore(a + b, c, unit, day);
    if IsFor(c, unit, day) {
      PlusAssociates(SumFor(a, unit, day), SumFor(b, unit, day), c.tokens);
    }
  }

  lemma PlusAssociates(x: Tokens, y: Tokens, z: Tokens)
    ensures x.Plus(y).Plus(z) == x.Plus(y.Plus(z))
  {
  }

  lemma {:induction false} SumOfConcat(a: seq<Charge>, b: seq<Charge>, unit: WorkUnit, day: Option<Instant>)
    ensures SumFor(a + b, unit, day) == SumFor(a, unit, day).Plus(SumFor(b, unit, day))
  {
    if b == [] {
      assert a + b == a;
    } else {
      var front, c := b[..|b| - 1], b[|b| - 1];
      SumOfConcat(a, front, unit, day);
      SumOfConcatAndOne(a, front, c, unit, day);
      assert b == front + [c];
      ConcatAssociates(a, front, [c]);
    }
  }

  lemma SumTakingOneOut(charged: seq<Charge>, at: nat, unit: WorkUnit, day: Option<Instant>)
    requires at < |charged|
    ensures SumFor(charged, unit, day) == SumFor(Without(charged, at), unit, day).Plus(SumFor([charged[at]], unit, day))
  {
    assert charged == charged[..at] + ([charged[at]] + charged[at + 1..]);
    SumOfConcat(charged[..at], [charged[at]] + charged[at + 1..], unit, day);
    SumOfConcat([charged[at]], charged[at + 1..], unit, day);
    SumOfConcat(charged[..at], charged[at + 1..], unit, day);
  }

  lemma EnumeratesWithout(ids: seq<string>, messages: map<string, Charge>, at: nat)
    requires Enumerates(ids, messages) && at < |ids|
    ensures Enumerates(Without(ids, at), messages - {ids[at]})
    ensures ChargesOf(Without(ids, at), messages - {ids[at]}) == Without(ChargesOf(ids, messages), at)
  {
    var fewer := Without(ids, at);
    forall id | id in messages - {ids[at]} ensures id in fewer {
      var k :| 0 <= k < |ids| && ids[k] == id;
      assert fewer[if k < at then k else k - 1] == id;
    }
  }

  lemma {:induction false} AnyOrderAddsUp(ids: seq<string>, others: seq<string>, messages: map<string, Charge>, unit: WorkUnit, day: Option<Instant>)
    requires Enumerates(ids, messages) && Enumerates(others, messages)
    ensures SumFor(ChargesOf(ids, messages), unit, day) == SumFor(ChargesOf(others, messages), unit, day)
    decreases |ids|
  {
    if ids != [] {
      var id := ids[0];
      assert id in others;
      var at :| 0 <= at < |others| && others[at] == id;
      EnumeratesWithout(ids, messages, 0);
      EnumeratesWithout(others, messages, at);
      AnyOrderAddsUp(Without(ids, 0), Without(others, at), messages - {id}, unit, day);
      SumTakingOneOut(ChargesOf(ids, messages), 0, unit, day);
      SumTakingOneOut(ChargesOf(others, messages), at, unit, day);
    }
  }

  lemma EntriesAgree(spent: seq<UnitUsage>, again: seq<UnitUsage>, ids: seq<string>, others: seq<string>,
                     messages: map<string, Charge>, unnamed: seq<Charge>, j: nat, k: nat)
    requires Enumerates(ids, messages) && Enumerates(others, messages)
    requires EntriesAdd(spent, ChargesOf(ids, messages) + unnamed) && EntriesAdd(again, ChargesOf(others, messages) + unnamed)
    requires j < |spent| && k < |again| && spent[j].unit == again[k].unit && spent[j].day == again[k].day
    ensures spent[j] == again[k]
  {
    var unit, day := spent[j].unit, spent[j].day;
    AnyOrderAddsUp(ids, others, messages, unit, day);
    SumOfConcat(ChargesOf(ids, messages), unnamed, unit, day);
    SumOfConcat(ChargesOf(others, messages), unnamed, unit, day);
  }

  lemma ChargeIsThereAgain(ids: seq<string>, others: seq<string>, messages: map<string, Charge>, unnamed: seq<Charge>, at: nat) returns (again: nat)
    requires Enumerates(ids, messages) && Enumerates(others, messages) && at < |ids| + |unnamed|
    ensures again < |others| + |unnamed|
    ensures (ChargesOf(others, messages) + unnamed)[again] == (ChargesOf(ids, messages) + unnamed)[at]
  {
    if at < |ids| {
      assert ids[at] in others;
      again :| 0 <= again < |others| && others[again] == ids[at];
    } else {
      again := at - |ids| + |others|;
    }
  }

  lemma EntryIsThereAgain(spent: seq<UnitUsage>, again: seq<UnitUsage>, ids: seq<string>, others: seq<string>,
                          messages: map<string, Charge>, unnamed: seq<Charge>, j: nat)
    requires Enumerates(ids, messages) && Enumerates(others, messages)
    requires Balances(spent, ChargesOf(ids, messages) + unnamed) && Balances(again, ChargesOf(others, messages) + unnamed)
    requires j < |spent|
    ensures spent[j] in again
  {
    var charged, recharged := ChargesOf(ids, messages) + unnamed, ChargesOf(others, messages) + unnamed;
    var at :| 0 <= at < |charged| && IsFor(charged[at], spent[j].unit, spent[j].day);
    var at' := ChargeIsThereAgain(ids, others, messages, unnamed, at);
    assert HasEntry(again, recharged[at'].unit.value, DayOf(recharged[at'].at));
    var k :| 0 <= k < |again| && again[k].unit == spent[j].unit && again[k].day == spent[j].day;
    EntriesAgree(spent, again, ids, others, messages, unnamed, j, k);
  }

  /** Whatever order the messages come in, the same entries come out. */
  lemma SpentIsDetermined(spent: seq<UnitUsage>, again: seq<UnitUsage>, messages: map<string, Charge>, unnamed: seq<Charge>)
    requires Tallies(spent, messages, unnamed) && Tallies(again, messages, unnamed)
    ensures forall u :: u in spent <==> u in again
  {
    var ids :| Enumerates(ids, messages) && Balances(spent, ChargesOf(ids, messages) + unnamed);
    var others :| Enumerates(others, messages) && Balances(again, ChargesOf(others, messages) + unnamed);
    forall j | 0 <= j < |spent| ensures spent[j] in again {
      EntryIsThereAgain(spent, again, ids, others, messages, unnamed, j);
    }
    forall k | 0 <= k < |again| ensures again[k] in spent {
      EntryIsThereAgain(again, spent, others, ids, messages, unnamed, k);
    }
  }
}
