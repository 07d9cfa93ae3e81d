/**
 Rekall's two hooks put into a settings object, recognised there and taken out again, and what that leaves of
 everything else in it. An object's fields have no order here.
 */
module GuardHooks {
  import opened Options

  datatype Value =
    | Null
    | Bool(b: bool)
    | Number(n: int)
    | Text(text: string)
    | List(items: seq<Value>)
    | Object(fields: map<string, Value>)

  type Settings = map<string, Value>

  datatype Hook = Hook(event: string, matcher: Option<string>, subcommand: string)

  const BEFORE_TOOL := Hook("PreToolUse", Some("Bash|Read|Edit|Write"), "before-tool")
  const BEFORE_STOP := Hook("Stop", None, "before-stop")
  const HOOKS: seq<Hook> := [BEFORE_TOOL, BEFORE_STOP]

  /** A field of a value, when the value is an object that has it. */
  function Get(v: Value, key: string): Option<Value> {
    if v.Object? && key in v.fields then Some(v.fields[key]) else None
  }

  predicate EndsWith(text: string, ending: string) {
    |ending| <= |text| && text[|text| - |ending|..] == ending
  }

  function ShellQuoted(text: string): string {
    "'" + QuotesEscaped(text) + "'"
  }

  function QuotesEscaped(text: string): string {
    if text == "" then "" else (if text[0] == '\'' then "'\\''" else [text[0]]) + QuotesEscaped(text[1..])
  }

  function CommandOf(program: string, hook: Hook): string {
    ShellQuoted(program) + " guard " + hook.subcommand
  }

  function HandlerOf(program: string, hook: Hook): Value {
    Object(map["type" := Text("command"), "command" := Text(CommandOf(program, hook))])
  }

  function GroupOf(program: string, hook: Hook): Value {
    var handlers := List([HandlerOf(program, hook)]);
    if hook.matcher.Some? then Object(map["matcher" := Text(hook.matcher.value), "hooks" := handlers])
    else Object(map["hooks" := handlers])
  }

  predicate IsRekallHandler(handler: Value) {
    match Get(handler, "command")
    case Some(Text(command)) => EndsWith(command, " guard before-tool") || EndsWith(command, " guard before-stop")
    case _ => false
  }

  /** The handlers of a group, when it has a list of them. */
  function HandlersOf(group: Value): Option<seq<Value>> {
    match Get(group, "hooks")
    case Some(List(handlers)) => Some(handlers)
    case _ => None
  }

  /** `retain` on handlers. */
  function Foreign(handlers: seq<Value>): (r: seq<Value>)
    ensures forall h :: h in r <==> h in handlers && !IsRekallHandler(h)
  {
    if handlers == [] then []
    else if IsRekallHandler(handlers[0]) then Foreign(handlers[1..])
    else [handlers[0]] + Foreign(handlers[1..])
  }

  function Cleared(group: Value): Value {
    if HandlersOf(group).Some? then Object(group.fields["hooks" := List(Foreign(HandlersOf(group).value))]) else group
  }

  /** `remove_rekall_entries`: Rekall's handlers go, then every group left without a handler. */
  function WithoutRekall(groups: seq<Value>): seq<Value> {
    if groups == [] then []
    else
      var rest := WithoutRekall(groups[1..]);
      if HandlersOf(Cleared(groups[0])) == Some([]) then rest else [Cleared(groups[0])] + rest
  }

  /** The list `groups_of` finds or makes for an event, unless something else is in its place. */
  function GroupsOf(settings: Settings, event: string): Option<seq<Value>> {
    if "hooks" !in settings then Some([])
    else
      match settings["hooks"]
      case Object(hooks) =>
        if event !in hooks then Some([])
        else (match hooks[event] case List(groups) => Some(groups) case _ => None)
      case _ => None
  }

  function HooksOf(settings: Settings): map<string, Value> {
    if "hooks" in settings && settings["hooks"].Object? then settings["hooks"].fields else map[]
  }

  function WithGroups(settings: Settings, event: string, groups: seq<Value>): Settings {
    settings["hooks" := Object(HooksOf(settings)[event := List(groups)])]
  }

  /** Settings Rekall can add its hooks to. */
  predicate Usable(settings: Settings) {
    GroupsOf(settings, BEFORE_TOOL.event).Some? && GroupsOf(settings, BEFORE_STOP.event).Some?
  }

  /** What installing one hook makes of the settings. */
  function WithHook(settings: Settings, program: string, hook: Hook): Settings
    requires GroupsOf(settings, hook.event).Some?
  {
    WithGroups(settings, hook.event, WithoutRekall(GroupsOf(settings, hook.event).value) + [GroupOf(program, hook)])
  }

  function Installed(settings: Settings, program: string): Settings
    requires Usable(settings)
  {
    WithHook(WithHook(settings, program, BEFORE_TOOL), program, BEFORE_STOP)
  }

  /** What an event holds, if anything, is a list. */
  predicate ListedOrAbsent(settings: Settings, event: string) {
    event in HooksOf(settings) ==> HooksOf(settings)[event].List?
  }

  /** Settings Rekall can take its hooks out of: also those with something else where `hooks` should be. */
  predicate Removable(settings: Settings) {
    ListedOrAbsent(settings, BEFORE_TOOL.event) && ListedOrAbsent(settings, BEFORE_STOP.event)
  }

  function WithoutHook(settings: Settings, hook: Hook): Settings
    requires ListedOrAbsent(settings, hook.event)
  {
    var hooks := HooksOf(settings);
    if hook.event in hooks then WithGroups(settings, hook.event, WithoutRekall(hooks[hook.event].items)) else settings
  }

  /** The events that are not left with an empty list. */
  function KeptEvents(hooks: map<string, Value>): map<string, Value> {
    map event | event in hooks && hooks[event] != List([]) :: hooks[event]
  }

  /** `drop_empty_hooks`: events with an empty list go, and the `hooks` object when nothing is left in it. */
  function Dropped(settings: Settings): Settings {
    if "hooks" !in settings || !settings["hooks"].Object? then settings
    else
      var hooks := settings["hooks"].fields;
      var kept := KeptEvents(hooks);
      if kept == map[] then settings - {"hooks"} else settings["hooks" := Object(kept)]
  }

  function Uninstalled(settings: Settings): Settings
    requires Removable(settings)
  {
    Dropped(WithoutHook(WithoutHook(settings, BEFORE_TOOL), BEFORE_STOP))
  }

  function CommandsIn(handlers: seq<Value>): seq<string> {
    if handlers == [] then []
    else
      (match Get(handlers[0], "command") case Some(Text(command)) => [command] case _ => []) + CommandsIn(handlers[1..])
  }

  function CommandsOfGroups(groups: seq<Value>): seq<string> {
    if groups == [] then []
    else (match HandlersOf(groups[0]) case Some(hs) => CommandsIn(hs) case None => []) + CommandsOfGroups(groups[1..])
  }

  function CommandsOf(settings: Settings, event: string): seq<string> {
    match GroupsOf(settings, event)
    case Some(groups) => CommandsOfGroups(groups)
    case None => []
  }

  predicate IsInstalledIn(settings: Settings, program: string) {
    && CommandOf(program, BEFORE_TOOL) in CommandsOf(settings, BEFORE_TOOL.event)
    && CommandOf(program, BEFORE_STOP) in CommandsOf(settings, BEFORE_STOP.event)
  }

  // ------------------------------------------------------------------ the edits in place

  datatype Outcome = Written(settings: Settings) | Refused

  /** `install`: hook by hook on the settings read, refused when one finds no list to add to. */
  method Install(read: Settings, program: string) returns (r: Outcome)
    ensures r.Refused? <==> !Usable(read)
    ensures r.Written? ==> r.settings == Installed(read, program)
  {
    var settings := read;
    for k := 0 to |HOOKS|
      invariant k >= 1 ==> GroupsOf(read, BEFORE_TOOL.event).Some?
      invariant k == 2 ==> Usable(read)
      invariant settings == if k == 0 then read else if k == 1 then WithHook(read, program, BEFORE_TOOL) else Installed(read, program)
    {
      OneHookLeavesTheOther(read, program);
      var groups := GroupsOf(settings, HOOKS[k].event);
      if groups.None? {
        return Refused;
      }
      settings := WithGroups(settings, HOOKS[k].event, WithoutRekall(groups.value) + [GroupOf(program, HOOKS[k])]);
    }
    r := Written(settings);
  }

  lemma OneHookLeavesTheOther(settings: Settings, program: string)
    ensures GroupsOf(settings, BEFORE_TOOL.event).Some? ==>
              GroupsOf(WithHook(settings, program, BEFORE_TOOL), BEFORE_STOP.event) == GroupsOf(settings, BEFORE_STOP.event)
  {
  }

  /** `uninstall`: refused only when an event it must edit holds something that is not a list. */
  method Uninstall(read: Settings) returns (r: Outcome)
    ensures r.Refused? <==> !Removable(read)
    ensures r.Written? ==> r.settings == Uninstalled(read)
  {
    var settings := read;
    for k := 0 to |HOOKS|
      invariant k >= 1 ==> ListedOrAbsent(read, BEFORE_TOOL.event)
      invariant k == 2 ==> Removable(read)
      invariant settings == if k == 0 then read else if k == 1 then WithoutHook(read, BEFORE_TOOL) else WithoutHook(WithoutHook(read, BEFORE_TOOL), BEFORE_STOP)
    {
      var hooks := HooksOf(settings);
      if HOOKS[k].event in hooks {
        if !hooks[HOOKS[k].event].List? {
          return Refused;
        }
        settings := WithGroups(settings, HOOKS[k].event, WithoutRekall(hooks[HOOKS[k].event].items));
      }
    }
    r := Written(Dropped(settings));
  }

  // ------------------------------------------------------------------ handlers and groups

  lemma {:induction false} ForeignOfForeign(handlers: seq<Value>)
    requires forall h :: h in handlers ==> !IsRekallHandler(h)
    ensures Foreign(handlers) == handlers
  {
    if handlers != [] {
      assert handlers[0] in handlers;
      assert forall h :: h in handlers[1..] ==> h in handlers;
      ForeignOfForeign(handlers[1..]);
    }
  }

  lemma ClearedTwice(group: Value)
    ensures Cleared(Cleared(group)) == Cleared(group)
    ensures HandlersOf(group).Some? ==> HandlersOf(Cleared(group)) == Some(Foreign(HandlersOf(group).value))
    ensures HandlersOf(group).None? ==> Cleared(group) == group
  {
    if HandlersOf(group).Some? {
      var foreign := Foreign(HandlersOf(group).value);
      ForeignOfForeign(foreign);
      assert Cleared(group).fields["hooks" := List(foreign)] == Cleared(group).fields;
    }
  }

  lemma {:induction false} WithoutRekallTwice(groups: seq<Value>)
    ensures WithoutRekall(WithoutRekall(groups)) == WithoutRekall(groups)
  {
    if groups != [] {
      WithoutRekallTwice(groups[1..]);
      ClearedTwice(groups[0]);
      var rest := WithoutRekall(groups[1..]);
      if HandlersOf(Cleared(groups[0])) != Some([]) {
        assert ([Cleared(groups[0])] + rest)[1..] == rest;
      }
    }
  }

  lemma {:induction false} WithoutRekallOfConcat(a: seq<Value>, b: seq<Value>)
    ensures WithoutRekall(a + b) == WithoutRekall(a) + WithoutRekall(b)
  {
    if a == [] {
      assert a + b == b;
    } else {
      assert (a + b)[1..] == a[1..] + b;
      WithoutRekallOfConcat(a[1..], b);
    }
  }

  lemma CommandIsRekalls(program: string, hook: Hook)
    requires hook == BEFORE_TOOL || hook == BEFORE_STOP
    ensures EndsWith(CommandOf(program, hook), " guard " + hook.subcommand)
    ensures " guard " + hook.subcommand == if hook == BEFORE_TOOL then " guard before-tool" else " guard before-stop"
  {
    QuotedThenEnding(ShellQuoted(program), " guard ", hook.subcommand);
  }

  lemma QuotedThenEnding(quoted: string, guard: string, subcommand: string)
    ensures EndsWith(quoted + guard + subcommand, guard + subcommand)
  {
    assert quoted + guard + subcommand == quoted + (guard + subcommand);
  }

  lemma OwnHandlerIsRekalls(program: string, hook: Hook)
    requires hook == BEFORE_TOOL || hook == BEFORE_STOP
    ensures IsRekallHandler(HandlerOf(program, hook))
    ensures HandlersOf(GroupOf(program, hook)) == Some([HandlerOf(program, hook)])
  {
    CommandIsRekalls(program, hook);
  }

  /** Rekall's own group goes whole. */
  lemma OwnGroupGoes(program: string, hook: Hook)
    requires hook == BEFORE_TOOL || hook == BEFORE_STOP
    ensures WithoutRekall([GroupOf(program, hook)]) == []
  {
    OwnHandlerIsRekalls(program, hook);
    assert Foreign([HandlerOf(program, hook)]) == [];
  }

  lemma OwnGroupListsItsCommand(program: string, hook: Hook)
    requires hook == BEFORE_TOOL || hook == BEFORE_STOP
    ensures CommandsOfGroups([GroupOf(program, hook)]) == [CommandOf(program, hook)]
  {
    OwnHandlerIsRekalls(program, hook);
    assert CommandsIn([HandlerOf(program, hook)]) == [CommandOf(program, hook)];
  }

  /** Adding Rekall's group and taking Rekall's entries out again leaves what was foreign. */
  lemma InstalledGroupsClear(groups: seq<Value>, program: string, hook: Hook)
    requires hook == BEFORE_TOOL || hook == BEFORE_STOP
    ensures WithoutRekall(WithoutRekall(groups) + [GroupOf(program, hook)]) == WithoutRekall(groups)
  {
    WithoutRekallOfConcat(WithoutRekall(groups), [GroupOf(program, hook)]);
    WithoutRekallTwice(groups);
    OwnGroupGoes(program, hook);
  }

  /** Every handler listed for an event, group by group. */
  function AllHandlers(groups: seq<Value>): seq<Value> {
    if groups == [] then []
    else (match HandlersOf(groups[0]) case Some(hs) => hs case None => []) + AllHandlers(groups[1..])
  }

  lemma {:induction false} ForeignOfConcat(a: seq<Value>, b: seq<Value>)
    ensures Foreign(a + b) == Foreign(a) + Foreign(b)
  {
    if a == [] {
      assert a + b == b;
    } else {
      assert (a + b)[1..] == a[1..] + b;
      ForeignOfConcat(a[1..], b);
    }
  }

  /** Taking Rekall's entries out leaves exactly the foreign handlers, in their order. */
  lemma {:induction false} ForeignHandlersStay(groups: seq<Value>)
    ensures AllHandlers(WithoutRekall(groups)) == Foreign(AllHandlers(groups))
  {
    if groups != [] {
      ForeignHandlersStay(groups[1..]);
      ClearedTwice(groups[0]);
      var first := match HandlersOf(groups[0]) case Some(hs) => hs case None => [];
      ForeignOfConcat(first, AllHandlers(groups[1..]));
      var rest := WithoutRekall(groups[1..]);
      if HandlersOf(Cleared(groups[0])) != Some([]) {
        assert ([Cleared(groups[0])] + rest)[1..] == rest;
      }
    }
  }

  // ------------------------------------------------------------------ the settings

  ghost function GroupsWith(settings: Settings, program: string, hook: Hook): seq<Value>
    requires GroupsOf(settings, hook.event).Some?
  {
    WithoutRekall(GroupsOf(settings, hook.event).value) + [GroupOf(program, hook)]
  }

  /** The settings with these groups for the two events. */
  ghost function Holding(settings: Settings, tool: seq<Value>, stop: seq<Value>): Settings {
    settings["hooks" := Object(HooksOf(settings)[BEFORE_TOOL.event := List(tool)][BEFORE_STOP.event := List(stop)])]
  }

  lemma HoldingReadsBack(settings: Settings, tool: seq<Value>, stop: seq<Value>)
    ensures GroupsOf(Holding(settings, tool, stop), BEFORE_TOOL.event) == Some(tool)
    ensures GroupsOf(Holding(settings, tool, stop), BEFORE_STOP.event) == Some(stop)
  {
  }

  lemma HoldingAgain(settings: Settings, tool: seq<Value>, stop: seq<Value>, tool': seq<Value>, stop': seq<Value>)
    ensures Holding(Holding(settings, tool, stop), tool', stop') == Holding(settings, tool', stop')
  {
    var hooks := HooksOf(settings);
    assert hooks[BEFORE_TOOL.event := List(tool)][BEFORE_STOP.event := List(stop)][BEFORE_TOOL.event := List(tool')][BEFORE_STOP.event := List(stop')]
        == hooks[BEFORE_TOOL.event := List(tool')][BEFORE_STOP.event := List(stop')];
  }

  lemma HoldingCleared(settings: Settings, tool: seq<Value>, stop: seq<Value>)
    ensures Removable(Holding(settings, tool, stop))
    ensures Uninstalled(Holding(settings, tool, stop)) == Dropped(Holding(settings, WithoutRekall(tool), WithoutRekall(stop)))
  {
    HoldingWithoutTool(settings, tool, stop);
    HoldingWithoutStop(settings, WithoutRekall(tool), stop);
  }

  lemma HoldingWithoutTool(settings: Settings, tool: seq<Value>, stop: seq<Value>)
    ensures WithoutHook(Holding(settings, tool, stop), BEFORE_TOOL) == Holding(settings, WithoutRekall(tool), stop)
  {
    var hooks := HooksOf(settings);
    assert hooks[BEFORE_TOOL.event := List(tool)][BEFORE_STOP.event := List(stop)][BEFORE_TOOL.event := List(WithoutRekall(tool))]
        == hooks[BEFORE_TOOL.event := List(WithoutRekall(tool))][BEFORE_STOP.event := List(stop)];
  }

  lemma HoldingWithoutStop(settings: Settings, tool: seq<Value>, stop: seq<Value>)
    ensures WithoutHook(Holding(settings, tool, stop), BEFORE_STOP) == Holding(settings, tool, WithoutRekall(stop))
  {
    var hooks := HooksOf(settings)[BEFORE_TOOL.event := List(tool)];
    assert hooks[BEFORE_STOP.event := List(stop)][BEFORE_STOP.event := List(WithoutRekall(stop))]
        == hooks[BEFORE_STOP.event := List(WithoutRekall(stop))];
  }

  /** What installing makes of the settings, event by event. */
  lemma InstalledShape(settings: Settings, program: string)
    requires Usable(settings)
    ensures Installed(settings, program)
            == Holding(settings, GroupsWith(settings, program, BEFORE_TOOL), GroupsWith(settings, program, BEFORE_STOP))
  {
    OneHookLeavesTheOther(settings, program);
  }

  lemma {:induction false} CommandsOfConcat(a: seq<Value>, b: seq<Value>)
    ensures CommandsOfGroups(a + b) == CommandsOfGroups(a) + CommandsOfGroups(b)
  {
    if a == [] {
      assert a + b == b;
    } else {
      assert (a + b)[1..] == a[1..] + b;
      CommandsOfConcat(a[1..], b);
    }
  }

  lemma OwnCommandIsListed(groups: seq<Value>, program: string, hook: Hook)
    requires hook == BEFORE_TOOL || hook == BEFORE_STOP
    ensures CommandOf(program, hook) in CommandsOfGroups(groups + [GroupOf(program, hook)])
  {
    CommandsOfConcat(groups, [GroupOf(program, hook)]);
    OwnGroupListsItsCommand(program, hook);
  }

  /** After installing, both hooks are recognised. */
  lemma InstallingIsRecognised(settings: Settings, program: string)
    requires Usable(settings)
    ensures IsInstalledIn(Installed(settings, program), program)
  {
    InstalledShape(settings, program);
    HoldingReadsBack(settings, GroupsWith(settings, program, BEFORE_TOOL), GroupsWith(settings, program, BEFORE_STOP));
    OwnCommandIsListed(WithoutRekall(GroupsOf(settings, BEFORE_TOOL.event).value), program, BEFORE_TOOL);
    OwnCommandIsListed(WithoutRekall(GroupsOf(settings, BEFORE_STOP.event).value), program, BEFORE_STOP);
  }

  lemma GroupsWithAgain(settings: Settings, earlier: string, program: string)
    requires Usable(settings)
    ensures Usable(Installed(settings, earlier))
    ensures GroupsWith(Installed(settings, earlier), program, BEFORE_TOOL) == GroupsWith(settings, program, BEFORE_TOOL)
    ensures GroupsWith(Installed(settings, earlier), program, BEFORE_STOP) == GroupsWith(settings, program, BEFORE_STOP)
  {
    InstalledShape(settings, earlier);
    HoldingReadsBack(settings, GroupsWith(settings, earlier, BEFORE_TOOL), GroupsWith(settings, earlier, BEFORE_STOP));
    InstalledGroupsClear(GroupsOf(settings, BEFORE_TOOL.event).value, earlier, BEFORE_TOOL);
    InstalledGroupsClear(GroupsOf(settings, BEFORE_STOP.event).value, earlier, BEFORE_STOP);
  }

  /** Installing over an install, also one from another place, is as if that had never been: twice is once. */
  lemma InstallingAgainReplaces(settings: Settings, earlier: string, program: string)
    requires Usable(settings)
    ensures Usable(Installed(settings, earlier))
    ensures Installed(Installed(settings, earlier), program) == Installed(settings, program)
  {
    GroupsWithAgain(settings, earlier, program);
    InstalledShape(settings, earlier);
    InstalledShape(settings, program);
    InstalledShape(Installed(settings, earlier), program);
    HoldingAgain(settings, GroupsWith(settings, earlier, BEFORE_TOOL), GroupsWith(settings, earlier, BEFORE_STOP),
                 GroupsWith(settings, program, BEFORE_TOOL), GroupsWith(settings, program, BEFORE_STOP));
  }

  /** Nothing but the two events changes. */
  lemma InstallingLeavesTheRest(settings: Settings, program: string)
    requires Usable(settings)
    ensures Installed(settings, program) - {"hooks"} == settings - {"hooks"}
    ensures forall event :: event != BEFORE_TOOL.event && event != BEFORE_STOP.event ==>
              Get(Object(HooksOf(Installed(settings, program))), event) == Get(Object(HooksOf(settings)), event)
  {
    InstalledShape(settings, program);
  }

  /**
   In the two events every foreign handler keeps its group and its place: taking Rekall's entries out of
   both gives the same groups, and the foreign handlers are the same in the same order.
   */
  lemma InstallingKeepsForeignHandlers(settings: Settings, program: string, hook: Hook)
    requires Usable(settings) && (hook == BEFORE_TOOL || hook == BEFORE_STOP)
    ensures GroupsOf(Installed(settings, program), hook.event).Some?
    ensures var before, after := GroupsOf(settings, hook.event).value, GroupsOf(Installed(settings, program), hook.event).value;
            WithoutRekall(after) == WithoutRekall(before) && Foreign(AllHandlers(after)) == Foreign(AllHandlers(before))
  {
    InstalledShape(settings, program);
    HoldingReadsBack(settings, GroupsWith(settings, program, BEFORE_TOOL), GroupsWith(settings, program, BEFORE_STOP));
    var groups := GroupsOf(settings, hook.event).value;
    ForeignHandlersStay(groups);
    ForeignHandlersStay(GroupsWith(settings, program, hook));
    InstalledGroupsClear(groups, program, hook);
  }

  // ------------------------------------------------------------------ taking them out again

  /** A group Rekall has nothing in, and that is not empty. */
  predicate IsForeignGroup(group: Value) {
    HandlersOf(group).Some? ==>
      HandlersOf(group).value != [] && forall h :: h in HandlersOf(group).value ==> !IsRekallHandler(h)
  }

  lemma {:induction false} OnlyForeignGroupsStay(groups: seq<Value>)
    ensures forall g :: g in WithoutRekall(groups) ==> IsForeignGroup(g)
  {
    if groups != [] {
      OnlyForeignGroupsStay(groups[1..]);
      ClearedTwice(groups[0]);
    }
  }

  lemma ForeignGroupStays(group: Value)
    requires IsForeignGroup(group)
    ensures Cleared(group) == group && HandlersOf(group) != Some([])
  {
    if HandlersOf(group).Some? {
      ForeignOfForeign(HandlersOf(group).value);
      assert group.fields["hooks" := List(HandlersOf(group).value)] == group.fields;
    }
  }

  lemma {:induction false} ForeignGroupsStay(groups: seq<Value>)
    requires forall g :: g in groups ==> IsForeignGroup(g)
    ensures WithoutRekall(groups) == groups
  {
    if groups != [] {
      var first, rest := groups[0], groups[1..];
      assert groups == [first] + rest && first in groups;
      assert forall g :: g in rest ==> g in groups;
      ForeignGroupsStay(rest);
      ForeignGroupStays(first);
    }
  }

  /** No event with an empty list, and no empty `hooks` object. */
  predicate NothingEmpty(settings: Settings) {
    && ("hooks" in settings ==> settings["hooks"] != Object(map[]))
    && (forall event :: event in HooksOf(settings) ==> HooksOf(settings)[event] != List([]))
  }

  /** Settings that hold no Rekall entry and no empty group, event or `hooks` object. */
  predicate Tidy(settings: Settings)
    requires Usable(settings)
  {
    && NothingEmpty(settings)
    && (forall g :: g in GroupsOf(settings, BEFORE_TOOL.event).value ==> IsForeignGroup(g))
    && (forall g :: g in GroupsOf(settings, BEFORE_STOP.event).value ==> IsForeignGroup(g))
  }

  /** What installing and taking out again leaves of the settings, before the empty parts go. */
  ghost function ForeignOnly(settings: Settings): Settings
    requires Usable(settings)
  {
    Holding(settings, WithoutRekall(GroupsOf(settings, BEFORE_TOOL.event).value), WithoutRekall(GroupsOf(settings, BEFORE_STOP.event).value))
  }

  lemma UninstallingAnInstall(settings: Settings, program: string)
    requires Usable(settings)
    ensures Removable(Installed(settings, program))
    ensures Uninstalled(Installed(settings, program)) == Dropped(ForeignOnly(settings))
  {
    InstalledShape(settings, program);
    HoldingCleared(settings, GroupsWith(settings, program, BEFORE_TOOL), GroupsWith(settings, program, BEFORE_STOP));
    InstalledGroupsClear(GroupsOf(settings, BEFORE_TOOL.event).value, program, BEFORE_TOOL);
    InstalledGroupsClear(GroupsOf(settings, BEFORE_STOP.event).value, program, BEFORE_STOP);
  }

  lemma DroppedIsNeverEmpty(settings: Settings)
    ensures NothingEmpty(Dropped(settings))
  {
  }

  lemma TidyEventsComeBack(settings: Settings)
    requires Usable(settings) && Tidy(settings)
    ensures KeptEvents(HooksOf(ForeignOnly(settings))) == HooksOf(settings)
  {
    ForeignGroupsStay(GroupsOf(settings, BEFORE_TOOL.event).value);
    ForeignGroupsStay(GroupsOf(settings, BEFORE_STOP.event).value);
  }

  lemma TidyComesBack(settings: Settings)
    requires Usable(settings) && Tidy(settings)
    ensures Dropped(ForeignOnly(settings)) == settings
  {
    TidyEventsComeBack(settings);
    var hooks := HooksOf(settings);
    if "hooks" in settings {
      assert settings["hooks" := Object(hooks)] == settings;
    } else {
      assert ForeignOnly(settings) - {"hooks"} == settings;
    }
  }

  lemma OnlyTidyComesBack(settings: Settings)
    requires Usable(settings) && Dropped(ForeignOnly(settings)) == settings
    ensures Tidy(settings)
  {
    DroppedIsNeverEmpty(ForeignOnly(settings));
    OnlyForeignGroupsStay(GroupsOf(settings, BEFORE_TOOL.event).value);
    OnlyForeignGroupsStay(GroupsOf(settings, BEFORE_STOP.event).value);
    forall event | event in HooksOf(settings) ensures HooksOf(settings)[event] == HooksOf(ForeignOnly(settings))[event] {}
  }

  /** Uninstalling undoes installing exactly when the settings held no Rekall entry and nothing empty. */
  lemma UninstallingRestores(settings: Settings, program: string)
    requires Usable(settings)
    ensures Removable(Installed(settings, program))
    ensures Uninstalled(Installed(settings, program)) == settings <==> Tidy(settings)
  {
    UninstallingAnInstall(settings, program);
    if Tidy(settings) {
      TidyComesBack(settings);
    }
    if Uninstalled(Installed(settings, program)) == settings {
      OnlyTidyComesBack(settings);
    }
  }

  lemma {:induction false} ListedCommandHasAHandler(handlers: seq<Value>, command: string)
    requires command in CommandsIn(handlers)
    ensures exists h :: h in handlers && Get(h, "command") == Some(Text(command))
  {
    if Get(handlers[0], "command") != Some(Text(command)) {
      ListedCommandHasAHandler(handlers[1..], command);
    } else {
      assert handlers[0] in handlers;
    }
  }

  lemma {:induction false} ForeignGroupsListNoneOfOurs(groups: seq<Value>, program: string, hook: Hook)
    requires hook == BEFORE_TOOL || hook == BEFORE_STOP
    requires forall g :: g in groups ==> IsForeignGroup(g)
    ensures CommandOf(program, hook) !in CommandsOfGroups(groups)
  {
    if groups != [] {
      assert groups[0] in groups;
      assert forall g :: g in groups[1..] ==> g in groups;
      ForeignGroupsListNoneOfOurs(groups[1..], program, hook);
      CommandIsRekalls(program, hook);
      if HandlersOf(groups[0]).Some? && CommandOf(program, hook) in CommandsIn(HandlersOf(groups[0]).value) {
        ListedCommandHasAHandler(HandlersOf(groups[0]).value, CommandOf(program, hook));
      }
    }
  }

  /** What an event holds after uninstalling: its groups without Rekall's entries, or none. */
  lemma UninstalledGroups(settings: Settings, hook: Hook)
    requires Removable(settings) && (hook == BEFORE_TOOL || hook == BEFORE_STOP)
    ensures var groups := GroupsOf(Uninstalled(settings), hook.event);
            groups.None? || groups == Some([])
            || (hook.event in HooksOf(settings) && groups == Some(WithoutRekall(HooksOf(settings)[hook.event].items)))
  {
    var once := WithoutHook(settings, BEFORE_TOOL);
    assert Get(Object(HooksOf(once)), BEFORE_STOP.event) == Get(Object(HooksOf(settings)), BEFORE_STOP.event);
    var twice := WithoutHook(once, BEFORE_STOP);
    assert Get(Object(HooksOf(twice)), BEFORE_TOOL.event) == Get(Object(HooksOf(once)), BEFORE_TOOL.event);
  }

  /** After uninstalling, neither event has a Rekall handler left, from whatever program. */
  lemma NoRekallHandlerIsLeft(settings: Settings, hook: Hook)
    requires Removable(settings) && (hook == BEFORE_TOOL || hook == BEFORE_STOP)
    ensures var groups := GroupsOf(Uninstalled(settings), hook.event);
            groups.Some? ==> forall h :: h in AllHandlers(groups.value) ==> !IsRekallHandler(h)
  {
    UninstalledGroups(settings, hook);
    if hook.event in HooksOf(settings) {
      ForeignHandlersStay(HooksOf(settings)[hook.event].items);
    }
  }

  /** After uninstalling, neither hook's command is found, whatever the program. */
  lemma UninstalledIsNotRecognised(settings: Settings, program: string, hook: Hook)
    requires Removable(settings) && (hook == BEFORE_TOOL || hook == BEFORE_STOP)
    ensures CommandOf(program, hook) !in CommandsOf(Uninstalled(settings), hook.event)
  {
    var groups := if hook.event in HooksOf(settings) then HooksOf(settings)[hook.event].items else [];
    OnlyForeignGroupsStay(groups);
    ForeignGroupsListNoneOfOurs(WithoutRekall(groups), program, hook);
    ForeignGroupsListNoneOfOurs([], program, hook);
    UninstalledGroups(settings, hook);
  }

  // ------------------------------------------------------------------ what taking them out leaves, for any settings

  /** The groups an event lists. */
  function ListedIn(settings: Settings, event: string): seq<Value> {
    if event in HooksOf(settings) && HooksOf(settings)[event].List? then HooksOf(settings)[event].items else []
  }

  predicate IsOurs(event: string) {
    event == "PreToolUse" || event == "Stop"
  }

  /** The hooks before the empty parts go: the two events cleared, if they are there, and everything else as it was. */
  lemma ClearedHooks(settings: Settings)
    requires Removable(settings)
    ensures var cleared := WithoutHook(WithoutHook(settings, BEFORE_TOOL), BEFORE_STOP);
            && cleared - {"hooks"} == settings - {"hooks"} && ("hooks" in cleared <==> "hooks" in settings)
            && ("hooks" in settings && !settings["hooks"].Object? ==> cleared == settings)
            && HooksOf(cleared).Keys == HooksOf(settings).Keys
            && forall event :: event in HooksOf(settings) ==>
                 HooksOf(cleared)[event] == if IsOurs(event) then List(WithoutRekall(ListedIn(settings, event))) else HooksOf(settings)[event]
  {
    var once := WithoutHook(settings, BEFORE_TOOL);
    assert HooksOf(once).Keys == HooksOf(settings).Keys;
  }

  /** Something but an empty list is left of the event once Rekall's entries are out. */
  predicate Remains(settings: Settings, event: string) {
    && event in HooksOf(settings)
    && if IsOurs(event) then WithoutRekall(ListedIn(settings, event)) != [] else HooksOf(settings)[event] != List([])
  }

  /**
   Uninstalling, installed or not: no other setting changes; the events that stay are those of which something remains, the two of ours
   cleared and the others as they were; and the `hooks` object goes only when nothing of it remains.
   */
  lemma UninstallingLeavesTheRest(settings: Settings)
    requires Removable(settings)
    ensures Uninstalled(settings) - {"hooks"} == settings - {"hooks"}
    ensures "hooks" in settings && !settings["hooks"].Object? ==> Uninstalled(settings) == settings
    ensures forall event :: event in HooksOf(Uninstalled(settings)) <==> Remains(settings, event)
    ensures forall event :: Remains(settings, event) ==>
              HooksOf(Uninstalled(settings))[event]
              == if IsOurs(event) then List(WithoutRekall(ListedIn(settings, event))) else HooksOf(settings)[event]
    ensures "hooks" in Uninstalled(settings) <==>
              "hooks" in settings && (settings["hooks"].Object? ==> exists event :: Remains(settings, event))
  {
    ClearedHooks(settings);
    var cleared := WithoutHook(WithoutHook(settings, BEFORE_TOOL), BEFORE_STOP);
    DroppedKeepsTheRest(cleared);
    assert forall event :: HoldsSome(cleared, event) <==> Remains(settings, event);
  }

  predicate HoldsSome(settings: Settings, event: string) {
    event in HooksOf(settings) && HooksOf(settings)[event] != List([])
  }

  lemma DroppedKeepsTheRest(settings: Settings)
    ensures Dropped(settings) - {"hooks"} == settings - {"hooks"}
    ensures "hooks" in settings && !settings["hooks"].Object? ==> Dropped(settings) == settings
    ensures forall event :: event in HooksOf(Dropped(settings)) <==> HoldsSome(settings, event)
    ensures forall event :: event in HooksOf(Dropped(settings)) ==> HooksOf(Dropped(settings))[event] == HooksOf(settings)[event]
    ensures "hooks" in Dropped(settings) <==>
              "hooks" in settings && (settings["hooks"].Object? ==> exists event :: HoldsSome(settings, event))
  {
    if "hooks" in settings && settings["hooks"].Object? {
      var hooks := settings["hooks"].fields;
      assert forall event :: event in KeptEvents(hooks) <==> HoldsSome(settings, event);
      if !exists event :: HoldsSome(settings, event) {
        assert KeptEvents(hooks).Keys == {};
      }
    }
  }

  /** In the two events the handlers left are the foreign ones that were there, in order. */
  lemma UninstallingKeepsForeignHandlers(settings: Settings, event: string)
    requires Removable(settings) && IsOurs(event)
    ensures AllHandlers(ListedIn(Uninstalled(settings), event)) == Foreign(AllHandlers(ListedIn(settings, event)))
  {
    UninstallingLeavesTheRest(settings);
    ForeignHandlersStay(ListedIn(settings, event));
  }

  lemma {:induction false} NothingIsLeft(groups: seq<Value>)
    ensures WithoutRekall(groups) == []
            <==> forall g :: g in groups ==> HandlersOf(g).Some? && forall h :: h in HandlersOf(g).value ==> IsRekallHandler(h)
  {
    if groups != [] {
      var first, rest := groups[0], groups[1..];
      NothingIsLeft(rest);
      ClearedTwice(first);
      assert groups == [first] + rest;
      if HandlersOf(first).Some? {
        NoForeigner(HandlersOf(first).value);
      }
    }
  }

  lemma NoForeigner(handlers: seq<Value>)
    ensures Foreign(handlers) == [] <==> forall h :: h in handlers ==> IsRekallHandler(h)
  {
    if Foreign(handlers) != [] {
      assert Foreign(handlers)[0] in Foreign(handlers);
    } else {
      assert forall h :: h in Foreign(handlers) <==> h in handlers && !IsRekallHandler(h);
    }
  }

  /** A group Rekall's handlers were taken out of: its other fields and its foreign handlers, of which there is one, are as they were. */
  ghost predicate IsTrimmed(kept: Value, group: Value) {
    if HandlersOf(group).None? then kept == group
    else
      && kept.Object? && kept.fields - {"hooks"} == group.fields - {"hooks"}
      && HandlersOf(kept) == Some(Foreign(HandlersOf(group).value)) && Foreign(HandlersOf(group).value) != []
  }

  /** Only handlers of Rekall's, or none at all. */
  ghost predicate IsEmptied(group: Value) {
    HandlersOf(group).Some? && Foreign(HandlersOf(group).value) == []
  }

  /** `at` says which group each one kept was, in the same order. */
  ghost predicate Trims(kept: seq<Value>, groups: seq<Value>, at: seq<int>) {
    && |at| == |kept|
    && (forall i :: 0 <= i < |at| ==> 0 <= at[i] < |groups| && IsTrimmed(kept[i], groups[at[i]]))
    && Ascending(at)
    && (forall j :: 0 <= j < |groups| && j !in at ==> IsEmptied(groups[j]))
  }

  ghost predicate Ascending(at: seq<int>) {
    forall i, j :: 0 <= i < j < |at| ==> at[i] < at[j]
  }

  function Later(at: seq<int>): (r: seq<int>)
    ensures |r| == |at| && forall i :: 0 <= i < |at| ==> r[i] == at[i] + 1
  {
    seq(|at|, i requires 0 <= i < |at| => at[i] + 1)
  }

  lemma LaterCovers(at: seq<int>, j: int)
    requires j in at
    ensures j + 1 in Later(at)
  {
    var i :| 0 <= i < |at| && at[i] == j;
    assert Later(at)[i] == j + 1;
  }

  lemma ShiftedAt(groups: seq<Value>, first: Value, at: seq<int>, i: nat)
    requires i < |at| && 0 <= at[i] < |groups|
    ensures Later(at)[i] == at[i] + 1 <= |groups| && ([first] + groups)[at[i] + 1] == groups[at[i]]
  {
  }

  lemma TrimsOneEmptied(kept: seq<Value>, groups: seq<Value>, at: seq<int>, first: Value)
    requires Trims(kept, groups, at) && IsEmptied(first)
    ensures Trims(kept, [first] + groups, Later(at))
  {
    forall i | 0 <= i < |at| ensures 0 <= Later(at)[i] <= |groups| && IsTrimmed(kept[i], ([first] + groups)[Later(at)[i]]) {
      ShiftedAt(groups, first, at, i);
    }
    forall j | 0 <= j <= |groups| && j !in Later(at) ensures IsEmptied(([first] + groups)[j]) {
      if j > 0 {
        assert ([first] + groups)[j] == groups[j - 1];
        if j - 1 in at {
          LaterCovers(at, j - 1);
        }
      }
    }
  }

  lemma LaterAscends(at: seq<int>)
    requires Ascending(at) && forall i :: 0 <= i < |at| ==> 0 <= at[i]
    ensures Ascending([0] + Later(at))
  {
    var at' := [0] + Later(at);
    assert forall i :: 0 < i < |at'| ==> at'[i] == at[i - 1] + 1;
  }

  lemma TrimsOneMore(kept: seq<Value>, groups: seq<Value>, at: seq<int>, first: Value, trimmed: Value)
    requires Trims(kept, groups, at) && IsTrimmed(trimmed, first)
    ensures Trims([trimmed] + kept, [first] + groups, [0] + Later(at))
  {
    LaterAscends(at);
    forall i | 0 <= i <= |at|
      ensures 0 <= ([0] + Later(at))[i] <= |groups| && IsTrimmed(([trimmed] + kept)[i], ([first] + groups)[([0] + Later(at))[i]])
    {
      TrimmedAt(kept, groups, at, first, trimmed, i);
    }
    forall j | 0 <= j <= |groups| && j !in [0] + Later(at) ensures IsEmptied(([first] + groups)[j]) {
      EmptiedAt(groups, at, first, j);
    }
  }

  lemma EmptiedAt(groups: seq<Value>, at: seq<int>, first: Value, j: int)
    requires 0 <= j <= |groups| && j !in [0] + Later(at)
    requires forall i :: 0 <= i < |groups| && i !in at ==> IsEmptied(groups[i])
    ensures IsEmptied(([first] + groups)[j])
  {
    LaterMisses(at, j);
    assert ([first] + groups)[j] == groups[j - 1];
  }

  lemma TrimmedAt(kept: seq<Value>, groups: seq<Value>, at: seq<int>, first: Value, trimmed: Value, i: nat)
    requires |at| == |kept| && i <= |at| && IsTrimmed(trimmed, first)
    requires i > 0 ==> 0 <= at[i - 1] < |groups| && IsTrimmed(kept[i - 1], groups[at[i - 1]])
    ensures 0 <= ([0] + Later(at))[i] <= |groups| && IsTrimmed(([trimmed] + kept)[i], ([first] + groups)[([0] + Later(at))[i]])
  {
    if i > 0 {
      assert ([0] + Later(at))[i] == at[i - 1] + 1 && ([trimmed] + kept)[i] == kept[i - 1];
      assert ([first] + groups)[at[i - 1] + 1] == groups[at[i - 1]];
    }
  }

  lemma LaterMisses(at: seq<int>, j: int)
    requires j !in [0] + Later(at)
    ensures j != 0 && j - 1 !in at
  {
    assert ([0] + Later(at))[0] == 0;
    if j - 1 in at {
      LaterCovers(at, j - 1);
    }
  }

  lemma ClearedIsTrimmed(group: Value)
    requires !IsEmptied(group)
    ensures IsTrimmed(Cleared(group), group)
  {
    ClearedTwice(group);
  }

  /** Taking Rekall's entries out keeps the groups in order, each trimmed, but for those it empties. */
  lemma {:induction false} WithoutRekallTrims(groups: seq<Value>) returns (at: seq<int>)
    ensures Trims(WithoutRekall(groups), groups, at)
  {
    if groups == [] {
      at := [];
    } else {
      var rest := WithoutRekallTrims(groups[1..]);
      ClearedTwice(groups[0]);
      assert groups == [groups[0]] + groups[1..];
      if IsEmptied(groups[0]) {
        TrimsOneEmptied(WithoutRekall(groups[1..]), groups[1..], rest, groups[0]);
        at := Later(rest);
      } else {
        ClearedIsTrimmed(groups[0]);
        TrimsOneMore(WithoutRekall(groups[1..]), groups[1..], rest, groups[0], Cleared(groups[0]));
        at := [0] + Later(rest);
      }
    }
  }

  // ------------------------------------------------------------------ when they can be edited, and how they read

  predicate IsListOrAbsent(hooks: map<string, Value>, event: string) {
    event in hooks ==> hooks[event].List?
  }

  /** Installing is possible exactly when `hooks` is absent, or an object in which neither event is anything but a list. */
  lemma UsableExactlyWhen(settings: Settings)
    ensures Usable(settings) <==>
              "hooks" in settings ==>
                settings["hooks"].Object? && IsListOrAbsent(settings["hooks"].fields, "PreToolUse") && IsListOrAbsent(settings["hooks"].fields, "Stop")
    ensures Removable(settings) <==>
              "hooks" in settings && settings["hooks"].Object? ==>
                IsListOrAbsent(settings["hooks"].fields, "PreToolUse") && IsListOrAbsent(settings["hooks"].fields, "Stop")
  {
  }

  /** What a POSIX shell makes of a word in single quotes, with a backslash before a character outside them. */
  function ShellReads(text: string, quoted: bool): string {
    if text == "" then ""
    else if text[0] == '\'' then ShellReads(text[1..], !quoted)
    else if !quoted && text[0] == '\\' && |text| > 1 then [text[1]] + ShellReads(text[2..], false)
    else [text[0]] + ShellReads(text[1..], quoted)
  }

  /** Out of the quotes, an escaped quote, and back into them. */
  lemma QuoteReadsBack(rest: string)
    ensures ShellReads("'\\''" + rest, true) == "'" + ShellReads(rest, true)
  {
    var a, b, c := "'\\''" + rest, "\\''" + rest, "'" + rest;
    assert a[1..] == b && b[2..] == c && c[1..] == rest;
    assert ShellReads(c, false) == ShellReads(rest, true);
    assert ShellReads(b, false) == "'" + ShellReads(c, false);
    assert ShellReads(a, true) == ShellReads(b, false);
  }

  lemma {:induction false} EscapedReadsBack(text: string)
    ensures ShellReads(QuotesEscaped(text) + "'", true) == text
  {
    if text == "" {
      assert QuotesEscaped(text) + "'" == "'";
      assert "'"[1..] == "";
    } else {
      var rest := QuotesEscaped(text[1..]) + "'";
      EscapedReadsBack(text[1..]);
      assert text == [text[0]] + text[1..];
      if text[0] == '\'' {
        QuoteReadsBack(rest);
        assert QuotesEscaped(text) + "'" == "'\\''" + rest;
      } else {
        assert QuotesEscaped(text) + "'" == [text[0]] + rest;
        assert ([text[0]] + rest)[1..] == rest;
      }
    }
  }

  /** A shell reads the quoted program as the program, whatever characters it has. */
  lemma ShellReadsTheProgram(program: string)
    ensures ShellReads(ShellQuoted(program), false) == program
  {
    EscapedReadsBack(program);
    assert ShellQuoted(program) == "'" + (QuotesEscaped(program) + "'");
    assert ShellQuoted(program)[1..] == QuotesEscaped(program) + "'";
  }

  ghost function OurHandler(program: string, ending: string): Value {
    Object(map["type" := Text("command"), "command" := Text(ShellQuoted(program) + ending)])
  }

  /** What installing adds, written out, last in each of the two events. */
  lemma InstalledGroupsAre(settings: Settings, program: string)
    requires Usable(settings)
    ensures var tool := GroupsOf(Installed(settings, program), "PreToolUse");
            && tool.Some? && tool.value != []
            && tool.value[|tool.value| - 1] == Object(map["matcher" := Text("Bash|Read|Edit|Write"), "hooks" := List([OurHandler(program, " guard before-tool")])])
    ensures var stop := GroupsOf(Installed(settings, program), "Stop");
            && stop.Some? && stop.value != []
            && stop.value[|stop.value| - 1] == Object(map["hooks" := List([OurHandler(program, " guard before-stop")])])
  {
    InstalledShape(settings, program);
    HoldingReadsBack(settings, GroupsWith(settings, program, BEFORE_TOOL), GroupsWith(settings, program, BEFORE_STOP));
    CommandIs(program, BEFORE_TOOL);
    CommandIs(program, BEFORE_STOP);
  }

  lemma CommandIs(program: string, hook: Hook)
    requires hook == BEFORE_TOOL || hook == BEFORE_STOP
    ensures CommandOf(program, hook) == ShellQuoted(program) + if hook == BEFORE_TOOL then " guard before-tool" else " guard before-stop"
  {
    assert CommandOf(program, hook) == ShellQuoted(program) + (" guard " + hook.subcommand);
  }

  /** An event's commands are those of its handlers, so a hook is recognised by any handler that has its command. */
  lemma {:induction false} CommandsAreTheHandlers(groups: seq<Value>, command: string)
    ensures command in CommandsOfGroups(groups) <==> exists h :: h in AllHandlers(groups) && Get(h, "command") == Some(Text(command))
  {
    if groups != [] {
      CommandsAreTheHandlers(groups[1..], command);
      var first := match HandlersOf(groups[0]) case Some(hs) => hs case None => [];
      CommandsInHandlers(first, command);
    }
  }

  lemma {:induction false} CommandsInHandlers(handlers: seq<Value>, command: string)
    ensures command in CommandsIn(handlers) <==> exists h :: h in handlers && Get(h, "command") == Some(Text(command))
  {
    if handlers != [] {
      CommandsInHandlers(handlers[1..], command);
      assert handlers == [handlers[0]] + handlers[1..];
    }
  }

  ghost predicate HasCommandEnding(handler: Value, ending: string) {
    exists program: string :: Get(handler, "command") == Some(Text(program + ending))
  }

  /** Rekall's handlers are those, of any program, whose command ends in one of the two. */
  lemma RekallHandlersAre(handler: Value)
    ensures IsRekallHandler(handler) <==> HasCommandEnding(handler, " guard before-tool") || HasCommandEnding(handler, " guard before-stop")
  {
    EndsWithMeans(handler, " guard before-tool");
    EndsWithMeans(handler, " guard before-stop");
  }

  lemma EndsWithMeans(handler: Value, ending: string)
    ensures HasCommandEnding(handler, ending)
            <==> Get(handler, "command").Some? && Get(handler, "command").value.Text? && EndsWith(Get(handler, "command").value.text, ending)
  {
    if HasCommandEnding(handler, ending) {
      var program: string :| Get(handler, "command") == Some(Text(program + ending));
      assert (program + ending)[|program|..] == ending;
    }
    if Get(handler, "command").Some? && Get(handler, "command").value.Text? && EndsWith(Get(handler, "command").value.text, ending) {
      var text := Get(handler, "command").value.text;
      assert text == text[..|text| - |ending|] + ending;
    }
  }
}
