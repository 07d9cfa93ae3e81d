/**
 The verdict on a usage reading: go ahead, or hold until an instant for a reason. Percentages are reals, and
 instants count microseconds.
 */
module UsageCeiling {
  import opened Options

  type Instant = int

  const MINUTE: int := 60_000_000
  const RESET_GRACE: int := MINUTE
  const NO_RESET_RECHECK: int := 15 * MINUTE
  const UNREADABLE_RECHECK: int := 5 * MINUTE

  datatype Limit = Limit(key: string, title: string, percent: real, resetsAt: Option<Instant>)

  /** `readable` says that the reading's status is Ok. */
  datatype UsageView = UsageView(readable: bool, limits: seq<Limit>)

  datatype Reason =
    | Unreadable(ceiling: int)
    | OverCeiling(title: string, shown: int, ceiling: int)

  datatype Verdict = Verdict(clear: bool, resumeAt: Option<Instant>, reason: Option<Reason>)

  const GO := Verdict(true, None, None)

  function Hold(resumeAt: Instant, reason: Reason): (v: Verdict) {
    Verdict(false, Some(resumeAt), Some(reason))
  }

  /** The nearest whole number, the higher of two as near. */
  function RoundHalfUp(value: real): (n: int)
    ensures n as real - 0.5 <= value < n as real + 0.5
  {
    (value + 0.5).Floor
  }

  predicate Counts(key: string, model: Option<string>) {
    key == "session" || key == "weekly_all" || (model.Some? && key == "weekly_" + model.value)
  }

  /** The windows that count and are at or over the ceiling, as they are listed. */
  function Over(limits: seq<Limit>, ceiling: int, model: Option<string>): (over: seq<Limit>)
    ensures forall l :: l in over <==> l in limits && IsOver(l, ceiling, model)
  {
    if limits == [] then []
    else if IsOver(limits[0], ceiling, model) then [limits[0]] + Over(limits[1..], ceiling, model)
    else Over(limits[1..], ceiling, model)
  }

  predicate IsOver(l: Limit, ceiling: int, model: Option<string>) {
    Counts(l.key, model) && l.percent >= ceiling as real
  }

  predicate Usable(usage: Option<UsageView>) {
    usage.Some? && usage.value.readable && usage.value.limits != []
  }

  /** What a hold means: a ceiling is set, and the reading is unusable or some counted window is at or over it. */
  ghost predicate Holds(usage: Option<UsageView>, ceiling: Option<int>, model: Option<string>) {
    && ceiling.Some?
    && (usage.Some? && usage.value.readable && usage.value.limits != [] ==>
          exists l :: l in usage.value.limits && l.percent >= ceiling.value as real && CountsFor(l.key, model))
  }

  /** The session's window and the week's count for every model, and besides them the week's window of the model itself. */
  ghost predicate CountsFor(key: string, model: Option<string>) {
    key in {"session", "weekly_all"} || exists m :: model == Some(m) && key == "weekly_" + m
  }

  lemma CountsIsCountsFor(key: string, model: Option<string>)
    ensures Counts(key, model) <==> CountsFor(key, model)
  {
  }

  /** `worst` is the first of the highest percentages in `over`. */
  ghost predicate IsFirstWorst(worst: Limit, over: seq<Limit>) {
    exists k :: 0 <= k < |over| && over[k] == worst
                && (forall j :: 0 <= j < |over| ==> over[j].percent <= worst.percent)
                && (forall j :: 0 <= j < k ==> over[j].percent < worst.percent)
  }

  ghost predicate AllResetsKnown(over: seq<Limit>) {
    forall l :: l in over ==> l.resetsAt.Some?
  }

  /** The reason names the first of the worst windows, its percentage rounded half up. */
  ghost predicate NamesWorst(v: Verdict, over: seq<Limit>, ceiling: int) {
    exists worst :: IsFirstWorst(worst, over)
                    && v.reason == Some(OverCeiling(worst.title, RoundHalfUp(worst.percent), ceiling))
  }

  /** Fifteen minutes on when a reset is unknown; else never before a minute past any, and no later than the latest of them or a minute from now. */
  ghost predicate ResumesAfterResets(v: Verdict, over: seq<Limit>, now: Instant) {
    && v.resumeAt.Some?
    && (!AllResetsKnown(over) ==> v.resumeAt.value == now + 900_000_000)
    && (AllResetsKnown(over) ==>
          && (forall l :: l in over ==> v.resumeAt.value >= l.resetsAt.value + 60_000_000)
          && (v.resumeAt.value == now + 60_000_000
              || exists l :: l in over && v.resumeAt.value == l.resetsAt.value + 60_000_000))
  }

  method FirstWorst(over: seq<Limit>) returns (worst: Limit)
    requires over != []
    ensures IsFirstWorst(worst, over)
  {
    worst := over[0];
    ghost var at := 0;
    for i := 1 to |over|
      invariant 0 <= at < i && over[at] == worst
      invariant forall j :: 0 <= j < i ==> over[j].percent <= worst.percent
      invariant forall j :: 0 <= j < at ==> over[j].percent < worst.percent
    {
      if over[i].percent > worst.percent {
        worst, at := over[i], i;
      }
    }
  }

  method LatestReset(over: seq<Limit>) returns (unknown: bool, latest: Instant)
    requires over != []
    ensures unknown <==> !AllResetsKnown(over)
    ensures !unknown ==> exists l :: l in over && l.resetsAt == Some(latest)
    ensures !unknown ==> forall l :: l in over ==> l.resetsAt.value <= latest
  {
    unknown, latest := false, 0;
    var at := 0;
    for i := 0 to |over|
      invariant unknown <==> exists j :: 0 <= j < i && over[j].resetsAt.None?
      invariant !unknown && 0 < i ==> 0 <= at < i && over[at].resetsAt == Some(latest)
      invariant !unknown ==> forall j :: 0 <= j < i ==> over[j].resetsAt.value <= latest
    {
      match over[i].resetsAt {
        case None => unknown := true;
        case Some(t) => if i == 0 || t > latest { latest, at := t, i; }
      }
    }
    assert !unknown ==> over[at] in over;
  }

  method ResumeAt(over: seq<Limit>, now: Instant) returns (resumeAt: Instant)
    requires over != []
    ensures resumeAt > now
    ensures forall reason :: ResumesAfterResets(Hold(resumeAt, reason), over, now)
  {
    var unknown, latest := LatestReset(over);
    if unknown {
      return now + NO_RESET_RECHECK;
    }
    var afterReset := latest + RESET_GRACE;
    resumeAt := if afterReset > now then afterReset else now + RESET_GRACE;
  }

  /** `check`, from the reading, the ceiling and the model the queue runs on. */
  method Check(usage: Option<UsageView>, ceiling: Option<int>, model: Option<string>, now: Instant) returns (v: Verdict)
    ensures v.clear <==> !Holds(usage, ceiling, model)
    ensures v.clear ==> v == GO
    ensures !v.clear ==> v.resumeAt.Some? && v.resumeAt.value > now
    ensures !v.clear && !Usable(usage) ==> v == Hold(now + 300_000_000, Unreadable(ceiling.value))
    ensures !v.clear && Usable(usage) ==>
              var over := Over(usage.value.limits, ceiling.value, model);
              NamesWorst(v, over, ceiling.value) && ResumesAfterResets(v, over, now)
  {
    if ceiling.None? {
      return GO;
    }
    if !Usable(usage) {
      return Hold(now + UNREADABLE_RECHECK, Unreadable(ceiling.value));
    }
    var over := Over(usage.value.limits, ceiling.value, model);
    assert forall l :: l in over <==> l in usage.value.limits && IsOver(l, ceiling.value, model);
    forall l | l in usage.value.limits {
      CountsIsCountsFor(l.key, model);
    }
    if over == [] {
      return GO;
    }
    assert over[0] in over;
    var worst := FirstWorst(over);
    var reason := OverCeiling(worst.title, RoundHalfUp(worst.percent), ceiling.value);
    var resumeAt := ResumeAt(over, now);
    v := Hold(resumeAt, reason);
  }

  /** Raising the ceiling never turns a clear verdict into a hold. */
  lemma RaisingTheCeilingNeverHolds(usage: Option<UsageView>, low: int, high: int, model: Option<string>)
    requires low <= high
    requires Holds(usage, Some(high), model)
    ensures Holds(usage, Some(low), model)
  {
    if Usable(usage) {
      var l :| l in usage.value.limits && l.percent >= high as real && CountsFor(l.key, model);
      assert l.percent >= low as real;
    }
  }

  /** A window exactly at the ceiling holds, whatever else was read; another model's window alone never does. */
  lemma WindowsThatHold(l: Limit, ceiling: int, model: Option<string>)
    ensures l.percent == ceiling as real && (l.key == "session" || l.key == "weekly_all" || (model.Some? && l.key == "weekly_" + model.value)) ==>
              forall limits :: l in limits ==> Holds(Some(UsageView(true, limits)), Some(ceiling), model)
    ensures l.key !in {"session", "weekly_all"} && (model.None? || l.key != "weekly_" + model.value) ==>
              !Holds(Some(UsageView(true, [l])), Some(ceiling), model)
  {
    CountsIsCountsFor(l.key, model);
  }
}
