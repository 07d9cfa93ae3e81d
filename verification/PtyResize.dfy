/**
 A terminal's window under concurrent pane resizes and repaint kicks. A resize applies and records its size under the
 size lock; a kick reads the size under that lock but shrinks the window after letting it go, and
 restores it later under the lock again. Every step of every thread is one move here, and the
 operating system may refuse any size.
 */
module PtyResize {
  import opened Options

  datatype Size = Size(columns: nat, rows: nat)

  const MAX_DIMENSION: int := 1000

  function Distance(a: int, b: int): nat {
    if a < b then b - a else a - b
  }

  /** The nearest dimension a window can have. */
  function Clamp(n: int): (r: nat)
    ensures 1 <= r <= MAX_DIMENSION
    ensures forall m :: 1 <= m <= MAX_DIMENSION && m != r ==> Distance(n, r) < Distance(n, m)
  {
    if n < 1 then 1 else if n > MAX_DIMENSION then MAX_DIMENSION else n
  }

  /** Who holds the size lock, and how far it got. */
  datatype Holder =
    | Nobody
    | Resizing(target: Size, applied: bool)
    | Restoring(kick: nat)

  /** A kick that has read the size, or has shrunk the window and owes a restore. */
  datatype Kick = HasRead(size: Size) | HasShrunk

  datatype State = State(window: Size, recorded: Size, holder: Holder, kicks: map<nat, Kick>)

  datatype Step =
    | AskResize(columns: int, rows: int)
    | ApplyResize(accepted: bool)
    | RecordResize
    | ReadForKick(kick: nat)
    | Shrink(kick: nat, accepted: bool)
    | AskRestore(kick: nat)
    | Restore(accepted: bool)

  ghost predicate Enabled(s: State, step: Step) {
    match step
    case AskResize(_, _) => s.holder.Nobody?
    case ApplyResize(_) => s.holder.Resizing? && !s.holder.applied
    case RecordResize => s.holder.Resizing? && s.holder.applied
    case ReadForKick(kick) => s.holder.Nobody? && kick !in s.kicks
    case Shrink(kick, _) => kick in s.kicks && s.kicks[kick].HasRead?
    case AskRestore(kick) => s.holder.Nobody? && kick in s.kicks && s.kicks[kick].HasShrunk?
    case Restore(_) => s.holder.Restoring?
  }

  ghost function After(s: State, step: Step): State
    requires Enabled(s, step)
  {
    match step
    case AskResize(columns, rows) =>
      var target := Size(Clamp(columns), Clamp(rows));
      if s.recorded == target then s else s.(holder := Resizing(target, false))
    case ApplyResize(accepted) =>
      if accepted then s.(window := s.holder.target, holder := Resizing(s.holder.target, true))
      else s.(holder := Nobody)
    case RecordResize => s.(recorded := s.holder.target, holder := Nobody)
    case ReadForKick(kick) => s.(kicks := s.kicks[kick := HasRead(s.recorded)])
    case Shrink(kick, accepted) =>
      if Shrunk(s, step).None? then s.(kicks := s.kicks - {kick})
      else s.(window := Shrunk(s, step).value, kicks := s.kicks[kick := HasShrunk])
    case AskRestore(kick) => s.(holder := Restoring(kick))
    case Restore(accepted) =>
      var done := s.(kicks := s.kicks - {s.holder.kick}, holder := Nobody);
      if accepted then done.(window := s.recorded) else done
  }

  /** The size the window shrinks to, when the step is a shrink that takes effect. */
  ghost function Shrunk(s: State, step: Step): Option<Size>
    requires Enabled(s, step)
  {
    if step.Shrink? && step.accepted && s.kicks[step.kick].size.rows > 1 then
      Some(Size(s.kicks[step.kick].size.columns, s.kicks[step.kick].size.rows - 1))
    else None
  }

  /** The step gives the window a size while the size lock is held. */
  ghost predicate SizesUnderLock(step: Step) {
    (step.ApplyResize? || step.Restore?) && step.accepted
  }

  /** No kick is between its shrink and its restore. */
  ghost predicate NoneShrunk(s: State) {
    forall k :: k in s.kicks ==> !s.kicks[k].HasShrunk?
  }

  /** Nothing is under way that owes the window a size. */
  ghost predicate Quiet(s: State) {
    s.holder.Nobody? && NoneShrunk(s)
  }

  ghost predicate Initial(s: State) {
    s.window == s.recorded && s.holder.Nobody? && s.kicks == map[]
  }

  ghost predicate IsRun(run: seq<State>, steps: seq<Step>) {
    && |run| == |steps| + 1 && Initial(run[0])
    && forall k {:trigger steps[k]} :: 0 <= k < |steps| ==> Enabled(run[k], steps[k]) && run[k + 1] == After(run[k], steps[k])
  }

  /** What the window was last shrunk to by step `k`, unless it has been given a size under the lock since. */
  ghost function LastShrunk(run: seq<State>, steps: seq<Step>, k: nat): Option<Size>
    requires IsRun(run, steps) && k < |run|
  {
    if k == 0 then None
    else
      assert Enabled(run[k - 1], steps[k - 1]);
      if Shrunk(run[k - 1], steps[k - 1]).Some? then Shrunk(run[k - 1], steps[k - 1])
      else if SizesUnderLock(steps[k - 1]) then None
      else LastShrunk(run, steps, k - 1)
  }

  /** The window's size follows from the last shrink that nothing made good, or else from what the lock's holder applied. */
  ghost predicate Accounted(s: State, shrunk: Option<Size>) {
    s.window ==
      if shrunk.Some? then shrunk.value
      else if s.holder.Resizing? && s.holder.applied then s.holder.target
      else s.recorded
  }

  /** Only a kick that shrank the window restores it. */
  ghost predicate SoundHolder(s: State) {
    s.holder.Restoring? ==> s.holder.kick in s.kicks && s.kicks[s.holder.kick].HasShrunk?
  }

  lemma StepKeepsAccount(s: State, step: Step, shrunk: Option<Size>)
    requires SoundHolder(s) && Accounted(s, shrunk) && Enabled(s, step)
    ensures SoundHolder(After(s, step))
    ensures Accounted(After(s, step), if Shrunk(s, step).Some? then Shrunk(s, step) else if SizesUnderLock(step) then None else shrunk)
  {
  }

  /** At every point of every interleaving, whatever is refused, the account gives the window's real size. */
  lemma {:induction false} RunIsAccounted(run: seq<State>, steps: seq<Step>, k: nat)
    requires IsRun(run, steps) && k < |run|
    ensures SoundHolder(run[k]) && Accounted(run[k], LastShrunk(run, steps, k))
  {
    if k > 0 {
      RunIsAccounted(run, steps, k - 1);
      StepKeepsAccount(run[k - 1], steps[k - 1], LastShrunk(run, steps, k - 1));
    }
  }

  /**
   Exactly when a window at rest has the recorded size: it was given a size under the lock since it was last shrunk, or
   that shrink happens to have left it at the recorded size.
   */
  lemma QuietWindowIsRightExactlyWhen(run: seq<State>, steps: seq<Step>, k: nat)
    requires IsRun(run, steps) && k < |run| && Quiet(run[k])
    ensures run[k].window == run[k].recorded
            <==> LastShrunk(run, steps, k).None? || LastShrunk(run, steps, k) == Some(run[k].recorded)
  {
    RunIsAccounted(run, steps, k);
  }

  lemma StepKeepsDebt(s: State, step: Step)
    requires SoundHolder(s) && Enabled(s, step) && !step.Restore?
    requires Shrunk(s, step).Some? || !NoneShrunk(s)
    ensures !NoneShrunk(After(s, step))
  {
    var s' := After(s, step);
    if Shrunk(s, step).Some? {
      assert s'.kicks[step.kick].HasShrunk?;
    } else {
      var k :| k in s.kicks && s.kicks[k].HasShrunk?;
      assert k in s'.kicks && s'.kicks[k].HasShrunk?;
    }
  }

  /** With every restore accepted, a shrink nothing made good is one whose kick has yet to restore it. */
  lemma {:induction false} AcceptedRestoresPayBack(run: seq<State>, steps: seq<Step>, k: nat)
    requires IsRun(run, steps) && k < |run|
    requires forall j :: 0 <= j < k && steps[j].Restore? ==> steps[j].accepted
    ensures LastShrunk(run, steps, k).Some? ==> !NoneShrunk(run[k])
  {
    if k > 0 {
      AcceptedRestoresPayBack(run, steps, k - 1);
      RunIsAccounted(run, steps, k - 1);
      assert Enabled(run[k - 1], steps[k - 1]) && run[k] == After(run[k - 1], steps[k - 1]);
      if LastShrunk(run, steps, k).Some? {
        StepKeepsDebt(run[k - 1], steps[k - 1]);
      }
    }
  }

  /**
   In every interleaving, once nothing is under way the window has the recorded size, even though the shrink
   runs outside the lock. Only a refused restore matters: a refused resize or shrink changes nothing.
   */
  lemma QuietWindowHasTheRecordedSize(run: seq<State>, steps: seq<Step>, k: nat)
    requires IsRun(run, steps) && k < |run| && Quiet(run[k])
    requires forall j :: 0 <= j < k && steps[j].Restore? ==> steps[j].accepted
    ensures run[k].window == run[k].recorded
  {
    AcceptedRestoresPayBack(run, steps, k);
    QuietWindowIsRightExactlyWhen(run, steps, k);
  }

  /** `n` is as near to `asked` as a window's dimension can be. */
  ghost predicate IsNearest(n: nat, asked: int) {
    1 <= n <= 1000 && forall m :: 1 <= m <= 1000 && m != n ==> Distance(asked, n) < Distance(asked, m)
  }

  /** The size is, columns and rows, what the step asked for, or as near as a window can get. */
  ghost predicate IsAskedBy(size: Size, step: Step) {
    step.AskResize? && IsNearest(size.columns, step.columns) && IsNearest(size.rows, step.rows)
  }

  ghost predicate WasAsked(size: Size, steps: seq<Step>, k: int) {
    exists j :: 0 <= j < k <= |steps| && IsAskedBy(size, steps[j])
  }

  /** A resize under way is to a size some pane asked for. */
  lemma {:induction false} TargetWasAsked(run: seq<State>, steps: seq<Step>, k: nat)
    requires IsRun(run, steps) && k < |run| && run[k].holder.Resizing?
    ensures WasAsked(run[k].holder.target, steps, k)
  {
    if k > 0 {
      assert Enabled(run[k - 1], steps[k - 1]) && run[k] == After(run[k - 1], steps[k - 1]);
      if run[k - 1].holder.Resizing? {
        TargetWasAsked(run, steps, k - 1);
      } else {
        assert IsAskedBy(run[k].holder.target, steps[k - 1]);
      }
    }
  }

  /**
   The size on record is one some pane asked for, or the one the terminal began with, in every interleaving. A resize
   that the operating system accepts records its own size and no other.
   */
  lemma {:induction false} RecordedSizeWasAsked(run: seq<State>, steps: seq<Step>, k: nat)
    requires IsRun(run, steps) && k < |run|
    ensures run[k].recorded == run[0].recorded || WasAsked(run[k].recorded, steps, k)
    ensures k > 0 && steps[k - 1].RecordResize? ==> run[k - 1].holder.Resizing? && run[k].recorded == run[k - 1].holder.target
    ensures k > 0 && !steps[k - 1].RecordResize? ==> run[k].recorded == run[k - 1].recorded
  {
    if k > 0 {
      assert Enabled(run[k - 1], steps[k - 1]) && run[k] == After(run[k - 1], steps[k - 1]);
      RecordedSizeWasAsked(run, steps, k - 1);
      if steps[k - 1].RecordResize? {
        TargetWasAsked(run, steps, k - 1);
      }
    }
  }

  /** A pane that asks for a size a window can have, other than the one on record, gets just that one, columns and rows, once it is accepted. */
  lemma AcceptedResizeIsRecorded(s: State, columns: int, rows: int)
    requires s.holder.Nobody? && 1 <= columns <= 1000 && 1 <= rows <= 1000 && s.recorded != Size(columns, rows)
    ensures var asked := After(s, AskResize(columns, rows));
            && Enabled(asked, ApplyResize(true))
            && var applied := After(asked, ApplyResize(true));
               && applied.window == Size(columns, rows) && applied.recorded == s.recorded && Enabled(applied, RecordResize)
               && After(applied, RecordResize) == s.(window := Size(columns, rows), recorded := Size(columns, rows))
    ensures After(s.(recorded := Size(columns, rows)), AskResize(columns, rows)) == s.(recorded := Size(columns, rows))
  {
    assert Distance(columns, columns) == 0 && Distance(rows, rows) == 0;
  }

  /** Without that acceptance the property fails: a kick whose restore is refused leaves the window a row short. */
  lemma ARefusedRestoreLeavesTheWindowShort()
    ensures exists run: seq<State>, steps: seq<Step>, k: nat :: IsRun(run, steps) && k < |run| && Quiet(run[k]) && run[k].window != run[k].recorded
  {
    var full := Size(80, 24);
    var s0 := State(full, full, Nobody, map[]);
    var s1 := s0.(kicks := map[0 := HasRead(full)]);
    var s2 := s1.(kicks := map[0 := HasShrunk], window := Size(80, 23));
    var s3 := s2.(holder := Restoring(0));
    var s4 := s3.(holder := Nobody, kicks := map[]);
    var steps := [ReadForKick(0), Shrink(0, true), AskRestore(0), Restore(false)];
    var run := [s0, s1, s2, s3, s4];
    assert s3.kicks - {0} == map[];
    assert run[1] == After(run[0], steps[0]) && run[2] == After(run[1], steps[1]);
    assert run[3] == After(run[2], steps[2]) && run[4] == After(run[3], steps[3]);
    assert IsRun(run, steps);
    assert Quiet(run[4]) && run[4].window != run[4].recorded;
  }
}
