/**
 Power actions: which substrate a runbook called by name acts on. Three relations are joined, the
 last two over keys made of entity, action and task names.
 */
module PowerActions {
  import opened Options

  /** The runbook a task refers to; the payload read back has its uuid, the exported one its name. */
  datatype Reference = Reference(uuid: string, name: string)

  /** `attrs` of a task: missing or empty, without a runbook reference that can be read, or with one. */
  datatype Attrs = Empty | Unreferenced | Referring(reference: Reference)
  datatype Task = Task(name: string, kind: string, attrs: Attrs)
  datatype Runbook = Runbook(uuid: string, tasks: seq<Task>)

  /** The `runbook` of an action or patch config: missing, null, or an object. */
  datatype Held = Absent | Null | Holds(runbook: Runbook)
  datatype Action = Action(name: string, held: Held)

  /** A substrate, service, profile or package with its actions and, for profiles, its patch configs. */
  datatype Entity = Entity(name: string, actions: seq<Action>, configs: seq<Action>)

  type Names = map<string, string>

  function Key(entity: string, action: string, task: string): string {
    entity + "_" + action + "_" + task
  }

  /** One task that calls a runbook, under its key. */
  datatype Call = Call(key: string, reference: Reference, fromConfig: bool)

  predicate Calls(t: Task) {
    t.kind == "CALL_RUNBOOK" && t.attrs.Referring?
  }

  // ----- what raises an error

  /** A task that calls a runbook has a reference that can be read. */
  predicate Readable(t: Task) {
    t.kind == "CALL_RUNBOOK" ==> !t.attrs.Unreferenced?
  }

  predicate ActionReadable(a: Action) {
    a.held.Holds? ==> forall t <- a.held.runbook.tasks :: Readable(t)
  }

  predicate AllReadable(actions: seq<Action>) {
    forall a <- actions :: ActionReadable(a)
  }

  predicate EntitiesReadable(entities: seq<Entity>) {
    forall e <- entities :: AllReadable(e.actions) && AllReadable(e.configs)
  }

  /** Power actions are read for the uuid of their runbook, which a null runbook does not have. */
  predicate PowerReadable(substrates: seq<Entity>) {
    forall s <- substrates, a <- s.actions :: !a.held.Null?
  }

  // ----- the order the loops meet calls in

  function TaskCalls(entity: string, action: string, tasks: seq<Task>, fromConfig: bool): seq<Call> {
    if tasks == [] then []
    else
      var t := tasks[|tasks|-1];
      TaskCalls(entity, action, tasks[..|tasks|-1], fromConfig)
      + (if Calls(t) then [Call(Key(entity, action, t.name), t.attrs.reference, fromConfig)] else [])
  }

  function ActionCalls(entity: string, action: Action, fromConfig: bool): seq<Call> {
    match action.held
    case Holds(rb) => TaskCalls(entity, action.name, rb.tasks, fromConfig)
    case _ => []
  }

  function ActionsCalls(entity: string, actions: seq<Action>, fromConfig: bool): seq<Call> {
    if actions == [] then []
    else
      ActionsCalls(entity, actions[..|actions|-1], fromConfig)
      + ActionCalls(entity, actions[|actions|-1], fromConfig)
  }

  function EntityCalls(e: Entity): seq<Call> {
    ActionsCalls(e.name, e.actions, false) + ActionsCalls(e.name, e.configs, true)
  }

  function EntitiesCalls(entities: seq<Entity>): seq<Call> {
    if entities == [] then []
    else EntitiesCalls(entities[..|entities|-1]) + EntityCalls(entities[|entities|-1])
  }

  function AllCalls(lists: seq<seq<Entity>>): seq<Call> {
    if lists == [] then [] else AllCalls(lists[..|lists|-1]) + EntitiesCalls(lists[|lists|-1])
  }

  // ----- the three maps

  function RunbookUuid(a: Action): string {
    if a.held.Holds? then a.held.runbook.uuid else ""
  }

  function PowerOf(substrate: string, actions: seq<Action>, m: Names): Names {
    if actions == [] then m
    else
      var a := actions[|actions|-1];
      PowerOf(substrate, actions[..|actions|-1], m)[RunbookUuid(a) := substrate]
  }

  /** Step 1: runbook uuid of a power action to its substrate, the last of a uuid winning. */
  function PowerMap(substrates: seq<Entity>): Names {
    if substrates == [] then map[]
    else PowerOf(substrates[|substrates|-1].name, substrates[|substrates|-1].actions,
                 PowerMap(substrates[..|substrates|-1]))
  }

  function SubstrateOf(power: Names, uuid: string): string {
    if uuid in power then power[uuid] else ""
  }

  /** Step 2: key of a task to the substrate of the runbook it calls by uuid. */
  function Keyed(m: Names, calls: seq<Call>, power: Names): Names {
    if calls == [] then m
    else
      var before, c := Keyed(m, calls[..|calls|-1], power), calls[|calls|-1];
      if c.reference.uuid == "" then before else before[c.key := SubstrateOf(power, c.reference.uuid)]
  }

  /** The exported call leads to a substrate; a call of a patch config also needs a runbook name. */
  predicate Leads(c: Call, keyed: Names) {
    (c.fromConfig ==> c.reference.name != "") && c.key in keyed && keyed[c.key] != ""
  }

  /** Step 3: name of a called runbook to substrate. */
  function Linked(m: Names, calls: seq<Call>, keyed: Names): Names {
    if calls == [] then m
    else
      var before, c := Linked(m, calls[..|calls|-1], keyed), calls[|calls|-1];
      if Leads(c, keyed) then before[c.reference.name := keyed[c.key]] else before
  }

  /** `vm_power_action_target_map` */
  function TargetMap(substrates: seq<Entity>, bp: seq<seq<Entity>>, exported: seq<seq<Entity>>): Names {
    Linked(map[], AllCalls(exported), Keyed(map[], AllCalls(bp), PowerMap(substrates)))
  }

  // ----- the loops

  lemma {:induction false} KeyedSplit(m: Names, a: seq<Call>, b: seq<Call>, power: Names)
    ensures Keyed(m, a + b, power) == Keyed(Keyed(m, a, power), b, power)
  {
    if b == [] {
      assert a + b == a;
    } else {
      assert (a + b)[..|a + b|-1] == a + b[..|b|-1];
      KeyedSplit(m, a, b[..|b|-1], power);
    }
  }

  lemma {:induction false} LinkedSplit(m: Names, a: seq<Call>, b: seq<Call>, keyed: Names)
    ensures Linked(m, a + b, keyed) == Linked(Linked(m, a, keyed), b, keyed)
  {
    if b == [] {
      assert a + b == a;
    } else {
      assert (a + b)[..|a + b|-1] == a + b[..|b|-1];
      LinkedSplit(m, a, b[..|b|-1], keyed);
    }
  }

  lemma LinkedOne(m: Names, c: Call, keyed: Names)
    ensures Linked(m, [c], keyed) ==
      if (c.fromConfig && c.reference.name == "") || c.key !in keyed || keyed[c.key] == "" then m
      else m[c.reference.name := keyed[c.key]]
  {
    assert [c][..0] == [];
  }

  lemma KeyedOne(m: Names, c: Call, power: Names)
    ensures Keyed(m, [c], power) == if c.reference.uuid == "" then m
            else m[c.key := SubstrateOf(power, c.reference.uuid)]
  {
    assert [c][..0] == [];
  }

  lemma KeyedEnds(m: Names, entity: string, action: string, tasks: seq<Task>, fromConfig: bool, power: Names)
    ensures Keyed(m, TaskCalls(entity, action, tasks[..0], fromConfig), power) == m
    ensures TaskCalls(entity, action, tasks[..|tasks|], fromConfig) == TaskCalls(entity, action, tasks, fromConfig)
  {
    assert tasks[..|tasks|] == tasks;
  }

  lemma LinkedEnds(m: Names, entity: string, action: string, tasks: seq<Task>, fromConfig: bool, keyed: Names)
    ensures Linked(m, TaskCalls(entity, action, tasks[..0], fromConfig), keyed) == m
    ensures TaskCalls(entity, action, tasks[..|tasks|], fromConfig) == TaskCalls(entity, action, tasks, fromConfig)
  {
    assert tasks[..|tasks|] == tasks;
  }

  lemma OneTask(entity: string, action: string, task: Task, fromConfig: bool)
    ensures TaskCalls(entity, action, [task], fromConfig)
         == if Calls(task) then [Call(Key(entity, action, task.name), task.attrs.reference, fromConfig)] else []
  {
    hide Key;
    assert [task][..0] == [];
  }

  lemma KeyedTask(m: Names, entity: string, action: string, task: Task, fromConfig: bool, power: Names)
    ensures Keyed(m, TaskCalls(entity, action, [task], fromConfig), power) ==
      if Calls(task) && task.attrs.reference.uuid != "" then
        m[Key(entity, action, task.name) := SubstrateOf(power, task.attrs.reference.uuid)]
      else m
  {
    OneTask(entity, action, task, fromConfig);
    if Calls(task) {
      KeyedOne(m, Call(Key(entity, action, task.name), task.attrs.reference, fromConfig), power);
    }
    hide Key, TaskCalls, SubstrateOf;
  }

  lemma LinkedTask(m: Names, entity: string, action: string, task: Task, fromConfig: bool, keyed: Names)
    ensures var key := Key(entity, action, task.name);
      Linked(m, TaskCalls(entity, action, [task], fromConfig), keyed) ==
      if Calls(task) && (!fromConfig || task.attrs.reference.name != "") && key in keyed && keyed[key] != "" then
        m[task.attrs.reference.name := keyed[key]]
      else m
  {
    OneTask(entity, action, task, fromConfig);
    if Calls(task) {
      LinkedOne(m, Call(Key(entity, action, task.name), task.attrs.reference, fromConfig), keyed);
    }
    hide Key, TaskCalls;
  }

  lemma KeyedTurn(m: Names, entity: string, action: string, tasks: seq<Task>, i: nat, fromConfig: bool, power: Names)
    requires i < |tasks|
    ensures Keyed(m, TaskCalls(entity, action, tasks[..i+1], fromConfig), power)
         == Keyed(Keyed(m, TaskCalls(entity, action, tasks[..i], fromConfig), power),
                  TaskCalls(entity, action, [tasks[i]], fromConfig), power)
  {
    hide Keyed, TaskCalls;
    assert tasks[..i+1] == tasks[..i] + [tasks[i]];
    TasksInOrder(entity, action, tasks[..i], [tasks[i]], fromConfig);
    KeyedSplit(m, TaskCalls(entity, action, tasks[..i], fromConfig), TaskCalls(entity, action, [tasks[i]], fromConfig),
               power);
  }

  lemma LinkedTurn(m: Names, entity: string, action: string, tasks: seq<Task>, i: nat, fromConfig: bool, keyed: Names)
    requires i < |tasks|
    ensures Linked(m, TaskCalls(entity, action, tasks[..i+1], fromConfig), keyed)
         == Linked(Linked(m, TaskCalls(entity, action, tasks[..i], fromConfig), keyed),
                   TaskCalls(entity, action, [tasks[i]], fromConfig), keyed)
  {
    hide Linked, TaskCalls;
    assert tasks[..i+1] == tasks[..i] + [tasks[i]];
    TasksInOrder(entity, action, tasks[..i], [tasks[i]], fromConfig);
    LinkedSplit(m, TaskCalls(entity, action, tasks[..i], fromConfig),
                TaskCalls(entity, action, [tasks[i]], fromConfig), keyed);
  }

  /** A runbook that is there: its calls, and whether they can be read. */
  lemma HeldCalls(entity: string, action: Action, fromConfig: bool)
    requires action.held.Holds?
    ensures ActionCalls(entity, action, fromConfig)
            == TaskCalls(entity, action.name, action.held.runbook.tasks, fromConfig)
    ensures ActionReadable(action) <==> FirstReadable(action.held.runbook.tasks, |action.held.runbook.tasks|)
    ensures FirstReadable(action.held.runbook.tasks, 0)
  {
    hide Readable;
  }

  predicate FirstReadable(tasks: seq<Task>, n: nat) {
    forall k | 0 <= k < n && k < |tasks| :: Readable(tasks[k])
  }

  lemma ReadableTurn(tasks: seq<Task>, i: nat)
    requires i < |tasks|
    ensures FirstReadable(tasks, i + 1) <==> FirstReadable(tasks, i) && Readable(tasks[i])
    ensures FirstReadable(tasks, |tasks|) ==> Readable(tasks[i])
  {
    hide Readable;
  }

  predicate FirstActions(actions: seq<Action>, n: nat) {
    forall k | 0 <= k < n && k < |actions| :: ActionReadable(actions[k])
  }

  lemma ActionTurn(actions: seq<Action>, i: nat)
    requires i < |actions|
    ensures FirstActions(actions, i + 1) <==> FirstActions(actions, i) && ActionReadable(actions[i])
    ensures AllReadable(actions) ==> ActionReadable(actions[i])
  {
    hide ActionReadable;
  }

  lemma ActionsReadable(actions: seq<Action>)
    ensures FirstActions(actions, 0) && (FirstActions(actions, |actions|) <==> AllReadable(actions))
  {
    hide ActionReadable;
  }

  lemma KeyedActionsEnd(m: Names, entity: string, actions: seq<Action>, fromConfig: bool, power: Names)
    ensures Keyed(m, ActionsCalls(entity, actions[..0], fromConfig), power) == m
    ensures ActionsCalls(entity, actions[..|actions|], fromConfig) == ActionsCalls(entity, actions, fromConfig)
  {
    assert actions[..|actions|] == actions;
  }

  lemma KeyedActionsTurn(m: Names, entity: string, actions: seq<Action>, i: nat, fromConfig: bool, power: Names)
    requires i < |actions|
    ensures Keyed(m, ActionsCalls(entity, actions[..i+1], fromConfig), power)
         == Keyed(Keyed(m, ActionsCalls(entity, actions[..i], fromConfig), power),
                  ActionCalls(entity, actions[i], fromConfig), power)
  {
    hide Keyed, ActionCalls;
    Prefix(actions, i);
    KeyedSplit(m, ActionsCalls(entity, actions[..i], fromConfig), ActionCalls(entity, actions[i], fromConfig), power);
  }

  lemma LinkedActionsEnd(m: Names, entity: string, actions: seq<Action>, fromConfig: bool, keyed: Names)
    ensures Linked(m, ActionsCalls(entity, actions[..0], fromConfig), keyed) == m
    ensures ActionsCalls(entity, actions[..|actions|], fromConfig) == ActionsCalls(entity, actions, fromConfig)
  {
    assert actions[..|actions|] == actions;
  }

  lemma LinkedActionsTurn(m: Names, entity: string, actions: seq<Action>, i: nat, fromConfig: bool, keyed: Names)
    requires i < |actions|
    ensures Linked(m, ActionsCalls(entity, actions[..i+1], fromConfig), keyed)
         == Linked(Linked(m, ActionsCalls(entity, actions[..i], fromConfig), keyed),
                   ActionCalls(entity, actions[i], fromConfig), keyed)
  {
    hide Linked, ActionCalls;
    Prefix(actions, i);
    LinkedSplit(m, ActionsCalls(entity, actions[..i], fromConfig), ActionCalls(entity, actions[i], fromConfig), keyed);
  }

  lemma Prefix<T>(s: seq<T>, i: nat)
    requires i < |s|
    ensures s[..i+1][..i] == s[..i] && s[..i+1][i] == s[i]
  {
  }

  lemma Whole<T>(s: seq<T>, i: nat)
    requires i == |s|
    ensures s[..i] == s
  {
  }

  class Linker {
    var power: Names      // vm_power_action_uuid_substrate_map
    var keyed: Names      // task_name_substrate_map
    var linked: Names     // reference_runbook_to_substrate_map

    constructor ()
      ensures power == map[] && keyed == map[] && linked == map[]
    {
      power, keyed, linked := map[], map[], map[];
    }

    method AddPower(substrates: seq<Entity>) returns (ok: bool)
      requires power == map[]
      modifies this`power
      ensures ok == PowerReadable(substrates)
      ensures ok ==> power == PowerMap(substrates)
    {
      var i := 0;
      while i < |substrates|
        invariant i <= |substrates| && power == PowerMap(substrates[..i])
        invariant forall n, a | 0 <= n < i && a in substrates[n].actions :: !a.held.Null?
      {
        Prefix(substrates, i);
        var substrate := substrates[i];
        var k := 0;
        ghost var before := power;
        while k < |substrate.actions|
          invariant k <= |substrate.actions|
          invariant power == PowerOf(substrate.name, substrate.actions[..k], before)
          invariant forall n | 0 <= n < k :: !substrate.actions[n].held.Null?
        {
          Prefix(substrate.actions, k);
          if substrate.actions[k].held.Null? {
            assert substrate in substrates && substrate.actions[k] in substrate.actions;
            return false;
          }
          power := power[RunbookUuid(substrate.actions[k]) := substrate.name];
          k := k + 1;
        }
        Whole(substrate.actions, k);
        i := i + 1;
      }
      Whole(substrates, i);
      ok := true;
    }

    /** One task of the loop below. */
    method KeyTask(entity: string, action: string, task: Task, fromConfig: bool)
      modifies this`keyed
      ensures keyed == Keyed(old(keyed), TaskCalls(entity, action, [task], fromConfig), power)
    {
      KeyedTask(keyed, entity, action, task, fromConfig, power);
      hide Key, Keyed, TaskCalls, SubstrateOf;
      if Calls(task) {
        var uuid := task.attrs.reference.uuid;
        if uuid != "" {
          keyed := keyed[Key(entity, action, task.name) := SubstrateOf(power, uuid)];
        }
      }
    }

    method KeyAction(entity: string, action: Action, fromConfig: bool) returns (ok: bool)
      modifies this`keyed
      ensures ok == ActionReadable(action)
      ensures ok ==> keyed == Keyed(old(keyed), ActionCalls(entity, action, fromConfig), power)
    {
      if !action.held.Holds? {
        return true;
      }
      var tasks := action.held.runbook.tasks;
      HeldCalls(entity, action, fromConfig);
      KeyedEnds(keyed, entity, action.name, tasks, fromConfig, power);
      ghost var was := keyed;
      hide *;
      var i := 0;
      while i < |tasks|
        invariant i <= |tasks| && FirstReadable(tasks, i)
        invariant keyed == Keyed(was, TaskCalls(entity, action.name, tasks[..i], fromConfig), power)
      {
        ReadableTurn(tasks, i);
        if !Readable(tasks[i]) {
          return false;
        }
        KeyTask(entity, action.name, tasks[i], fromConfig);
        KeyedTurn(was, entity, action.name, tasks, i, fromConfig, power);
        i := i + 1;
      }
      ok := true;
    }

    method KeyActions(entity: string, actions: seq<Action>, fromConfig: bool) returns (ok: bool)
      modifies this`keyed
      ensures ok == AllReadable(actions)
      ensures ok ==> keyed == Keyed(old(keyed), ActionsCalls(entity, actions, fromConfig), power)
    {
      KeyedActionsEnd(keyed, entity, actions, fromConfig, power);
      ActionsReadable(actions);
      ghost var was := keyed;
      hide *;
      var i := 0;
      while i < |actions|
        invariant i <= |actions| && FirstActions(actions, i)
        invariant keyed == Keyed(was, ActionsCalls(entity, actions[..i], fromConfig), power)
      {
        ActionTurn(actions, i);
        ok := KeyAction(entity, actions[i], fromConfig);
        if !ok {
          return;
        }
        KeyedActionsTurn(was, entity, actions, i, fromConfig, power);
        i := i + 1;
      }
      ok := true;
    }

    /** `_create_task_name_substrate_map` */
    method KeyEntities(entities: seq<Entity>) returns (ok: bool)
      modifies this`keyed
      ensures ok == EntitiesReadable(entities)
      ensures ok ==> keyed == Keyed(old(keyed), EntitiesCalls(entities), power)
    {
      hide ActionsCalls, Keyed, AllReadable;
      NothingKeyed(keyed, power);
      var i := 0;
      while i < |entities|
        invariant i <= |entities| && forall k | 0 <= k < i ::
                    AllReadable(entities[k].actions) && AllReadable(entities[k].configs)
        invariant keyed == Keyed(old(keyed), EntitiesCalls(entities[..i]), power)
      {
        Prefix(entities, i);
        var e := entities[i];
        ghost var before := keyed;
        assert e in entities;
        ok := KeyActions(e.name, e.actions, false);
        if !ok {
          return;
        }
        ok := KeyActions(e.name, e.configs, true);
        if !ok {
          return;
        }
        KeyedSplit(before, ActionsCalls(e.name, e.actions, false), ActionsCalls(e.name, e.configs, true), power);
        KeyedSplit(old(keyed), EntitiesCalls(entities[..i]), EntityCalls(e), power);
        i := i + 1;
      }
      Whole(entities, i);
      ok := true;
    }

    /** One task of the loop below. */
    method LinkTask(entity: string, action: string, task: Task, fromConfig: bool)
      modifies this`linked
      ensures linked == Linked(old(linked), TaskCalls(entity, action, [task], fromConfig), keyed)
    {
      LinkedTask(linked, entity, action, task, fromConfig, keyed);
      hide Key, Linked, TaskCalls;
      if Calls(task) {
        var name := task.attrs.reference.name;
        if !fromConfig || name != "" {
          var taskRef := Key(entity, action, task.name);
          if taskRef in keyed && keyed[taskRef] != "" {
            linked := linked[name := keyed[taskRef]];
          }
        }
      }
    }

    method LinkAction(entity: string, action: Action, fromConfig: bool) returns (ok: bool)
      modifies this`linked
      ensures ok == ActionReadable(action)
      ensures ok ==> linked == Linked(old(linked), ActionCalls(entity, action, fromConfig), keyed)
    {
      if !action.held.Holds? {
        return true;
      }
      var tasks := action.held.runbook.tasks;
      HeldCalls(entity, action, fromConfig);
      LinkedEnds(linked, entity, action.name, tasks, fromConfig, keyed);
      ghost var was := linked;
      hide *;
      var i := 0;
      while i < |tasks|
        invariant i <= |tasks| && FirstReadable(tasks, i)
        invariant linked == Linked(was, TaskCalls(entity, action.name, tasks[..i], fromConfig), keyed)
      {
        ReadableTurn(tasks, i);
        if !Readable(tasks[i]) {
          return false;
        }
        LinkTask(entity, action.name, tasks[i], fromConfig);
        LinkedTurn(was, entity, action.name, tasks, i, fromConfig, keyed);
        i := i + 1;
      }
      ok := true;
    }

    method LinkActions(entity: string, actions: seq<Action>, fromConfig: bool) returns (ok: bool)
      modifies this`linked
      ensures ok == AllReadable(actions)
      ensures ok ==> linked == Linked(old(linked), ActionsCalls(entity, actions, fromConfig), keyed)
    {
      LinkedActionsEnd(linked, entity, actions, fromConfig, keyed);
      ActionsReadable(actions);
      ghost var was := linked;
      hide *;
      var i := 0;
      while i < |actions|
        invariant i <= |actions| && FirstActions(actions, i)
        invariant linked == Linked(was, ActionsCalls(entity, actions[..i], fromConfig), keyed)
      {
        ActionTurn(actions, i);
        ok := LinkAction(entity, actions[i], fromConfig);
        if !ok {
          return;
        }
        LinkedActionsTurn(was, entity, actions, i, fromConfig, keyed);
        i := i + 1;
      }
      ok := true;
    }

    /** `_create_reference_runbook_substrate_map` */
    method LinkEntities(entities: seq<Entity>) returns (ok: bool)
      modifies this`linked
      ensures ok == EntitiesReadable(entities)
      ensures ok ==> linked == Linked(old(linked), EntitiesCalls(entities), keyed)
    {
      hide ActionsCalls, Linked, AllReadable;
      NothingLinked(linked, keyed);
      var i := 0;
      while i < |entities|
        invariant i <= |entities| && forall k | 0 <= k < i ::
                    AllReadable(entities[k].actions) && AllReadable(entities[k].configs)
        invariant linked == Linked(old(linked), EntitiesCalls(entities[..i]), keyed)
      {
        Prefix(entities, i);
        var e := entities[i];
        ghost var before := linked;
        assert e in entities;
        ok := LinkActions(e.name, e.actions, false);
        if !ok {
          return;
        }
        ok := LinkActions(e.name, e.configs, true);
        if !ok {
          return;
        }
        LinkedSplit(before, ActionsCalls(e.name, e.actions, false), ActionsCalls(e.name, e.configs, true), keyed);
        LinkedSplit(old(linked), EntitiesCalls(entities[..i]), EntityCalls(e), keyed);
        i := i + 1;
      }
      Whole(entities, i);
      ok := true;
    }
  }

  lemma NothingKeyed(m: Names, power: Names)
    ensures Keyed(m, EntitiesCalls([]), power) == m
  {
  }

  lemma NothingLinked(m: Names, keyed: Names)
    ensures Linked(m, EntitiesCalls([]), keyed) == m
  {
  }

  /** All that is read of the two payloads is there. */
  predicate PayloadReadable(substrates: seq<Entity>, bp: seq<seq<Entity>>, exported: seq<seq<Entity>>) {
    && PowerReadable(substrates)
    && (forall entities <- bp :: EntitiesReadable(entities))
        && forall entities <- exported :: EntitiesReadable(entities)
  }

  /**
   `vm_power_action_target_map`, or None when it raises an error; the two payloads are given as
   their entity lists, in the order they are visited.
   */
  method FindTargets(substrates: seq<Entity>, bp: seq<seq<Entity>>, exported: seq<seq<Entity>>)
    returns (targets: Option<Names>)
    ensures targets.Some? <==> PayloadReadable(substrates, bp, exported)
    ensures targets.Some? ==> targets.value == TargetMap(substrates, bp, exported)
  {
    hide Keyed, Linked, EntitiesCalls, EntitiesReadable, PowerReadable;
    var linker := new Linker();
    var ok := linker.AddPower(substrates);
    if !ok {
      return None;
    }
    NothingKeyed(map[], linker.power);
    var i := 0;
    assert Keyed(map[], AllCalls([]), linker.power) == map[] by { NoCalls(linker.power); }
    while i < |bp|
      invariant i <= |bp| && linker.power == PowerMap(substrates) && linker.linked == map[]
      invariant linker.keyed == Keyed(map[], AllCalls(bp[..i]), linker.power)
      invariant forall k | 0 <= k < i :: EntitiesReadable(bp[k])
    {
      Prefix(bp, i);
      ok := linker.KeyEntities(bp[i]);
      if !ok {
        assert bp[i] in bp;
        return None;
      }
      KeyedSplit(map[], AllCalls(bp[..i]), EntitiesCalls(bp[i]), linker.power);
      i := i + 1;
    }
    Whole(bp, i);
    i := 0;
    assert Linked(map[], AllCalls([]), linker.keyed) == map[] by { NoCalls(linker.keyed); }
    while i < |exported|
      invariant i <= |exported| && linker.keyed == Keyed(map[], AllCalls(bp), PowerMap(substrates))
      invariant linker.linked == Linked(map[], AllCalls(exported[..i]), linker.keyed)
      invariant forall k | 0 <= k < i :: EntitiesReadable(exported[k])
    {
      Prefix(exported, i);
      ok := linker.LinkEntities(exported[i]);
      if !ok {
        assert exported[i] in exported;
        return None;
      }
      LinkedSplit(map[], AllCalls(exported[..i]), EntitiesCalls(exported[i]), linker.keyed);
      i := i + 1;
    }
    Whole(exported, i);
    targets := Some(linker.linked);
  }

  lemma NoCalls(m: Names)
    ensures Keyed(map[], AllCalls([]), m) == map[] && Linked(map[], AllCalls([]), m) == map[]
  {
  }

  // ----- what the calls of a payload are

  /** The call of a task of this action or patch config. */
  ghost predicate InAction(c: Call, e: Entity, a: Action, fromConfig: bool) {
    && a.held.Holds?
    && exists t <- a.held.runbook.tasks ::
         && t.kind == "CALL_RUNBOOK" && t.attrs.Referring?
         && c == Call(e.name + "_" + a.name + "_" + t.name, t.attrs.reference, fromConfig)
  }

  ghost predicate InEntity(c: Call, e: Entity) {
    (exists a <- e.actions :: InAction(c, e, a, false)) || (exists a <- e.configs :: InAction(c, e, a, true))
  }

  ghost predicate InPayload(c: Call, lists: seq<seq<Entity>>) {
    exists entities <- lists :: InEntities(c, entities)
  }

  ghost predicate InEntities(c: Call, entities: seq<Entity>) {
    exists e <- entities :: InEntity(c, e)
  }

  lemma {:induction false} TaskCallsAre(entity: string, action: string, tasks: seq<Task>, fromConfig: bool, c: Call)
    ensures c in TaskCalls(entity, action, tasks, fromConfig) <==>
      exists t <- tasks ::
        && t.kind == "CALL_RUNBOOK" && t.attrs.Referring?
        && c == Call(entity + "_" + action + "_" + t.name, t.attrs.reference, fromConfig)
  {
    if tasks != [] {
      TaskCallsAre(entity, action, tasks[..|tasks|-1], fromConfig, c);
      assert tasks == tasks[..|tasks|-1] + [tasks[|tasks|-1]];
    }
  }

  lemma ActionCallsAre(e: Entity, a: Action, fromConfig: bool, c: Call)
    ensures c in ActionCalls(e.name, a, fromConfig) <==> InAction(c, e, a, fromConfig)
  {
    if a.held.Holds? {
      TaskCallsAre(e.name, a.name, a.held.runbook.tasks, fromConfig, c);
    }
  }

  lemma {:induction false} ActionsCallsAre(e: Entity, actions: seq<Action>, fromConfig: bool, c: Call)
    ensures c in ActionsCalls(e.name, actions, fromConfig) <==> exists a <- actions :: InAction(c, e, a, fromConfig)
  {
    hide ActionCalls, InAction;
    if actions != [] {
      var before, a := actions[..|actions|-1], actions[|actions|-1];
      assert actions == before + [a];
      ActionsCallsAre(e, before, fromConfig, c);
      ActionCallsAre(e, a, fromConfig, c);
    }
  }

  lemma {:induction false} EntitiesCallsAre(entities: seq<Entity>, c: Call)
    ensures c in EntitiesCalls(entities) <==> InEntities(c, entities)
  {
    hide ActionsCalls, InAction;
    if entities != [] {
      var before, e := entities[..|entities|-1], entities[|entities|-1];
      assert entities == before + [e];
      EntitiesCallsAre(before, c);
      ActionsCallsAre(e, e.actions, false, c);
      ActionsCallsAre(e, e.configs, true, c);
      assert c in EntityCalls(e) <==> InEntity(c, e);
      hide InEntity, EntityCalls;
    }
  }

  /** The calls are exactly those of the tasks of all actions and patch configs. */
  lemma {:induction false} CallsAre(lists: seq<seq<Entity>>, c: Call)
    ensures c in AllCalls(lists) <==> InPayload(c, lists)
  {
    hide EntitiesCalls, InEntities;
    if lists != [] {
      var before, entities := lists[..|lists|-1], lists[|lists|-1];
      assert lists == before + [entities];
      CallsAre(before, c);
      EntitiesCallsAre(entities, c);
    }
  }

  /**
   And they come in the order of the lists, their entities, the actions and then the configs of
   each, and the tasks.
   */
  lemma {:induction false} ListsInOrder(a: seq<seq<Entity>>, b: seq<seq<Entity>>)
    ensures AllCalls(a + b) == AllCalls(a) + AllCalls(b)
  {
    hide EntitiesCalls;
    if b == [] {
      assert a + b == a;
    } else {
      assert (a + b)[..|a + b|-1] == a + b[..|b|-1];
      ListsInOrder(a, b[..|b|-1]);
    }
  }

  lemma {:induction false} EntitiesInOrder(a: seq<Entity>, b: seq<Entity>)
    ensures EntitiesCalls(a + b) == EntitiesCalls(a) + EntitiesCalls(b)
  {
    hide EntityCalls;
    if b == [] {
      assert a + b == a;
    } else {
      assert (a + b)[..|a + b|-1] == a + b[..|b|-1];
      EntitiesInOrder(a, b[..|b|-1]);
    }
  }

  lemma OneEntity(e: Entity)
    ensures EntitiesCalls([e]) == ActionsCalls(e.name, e.actions, false) + ActionsCalls(e.name, e.configs, true)
  {
    assert [e][..0] == [];
  }

  lemma {:induction false} ActionsInOrder(entity: string, a: seq<Action>, b: seq<Action>, fromConfig: bool)
    ensures ActionsCalls(entity, a + b, fromConfig) == ActionsCalls(entity, a, fromConfig)
            + ActionsCalls(entity, b, fromConfig)
  {
    hide ActionCalls;
    if b == [] {
      assert a + b == a;
    } else {
      assert (a + b)[..|a + b|-1] == a + b[..|b|-1];
      ActionsInOrder(entity, a, b[..|b|-1], fromConfig);
    }
  }

  lemma {:induction false} TasksInOrder(entity: string, action: string, a: seq<Task>, b: seq<Task>, fromConfig: bool)
    ensures TaskCalls(entity, action, a + b, fromConfig)
         == TaskCalls(entity, action, a, fromConfig) + TaskCalls(entity, action, b, fromConfig)
  {
    hide Calls;
    if b == [] {
      assert a + b == a;
    } else {
      assert (a + b)[..|a + b|-1] == a + b[..|b|-1];
      TasksInOrder(entity, action, a, b[..|b|-1], fromConfig);
    }
  }

  // ----- the map as a join

  /** The runbook uuid of the last call of a key that has one. */
  function LastUuid(calls: seq<Call>, key: string): (uuid: Option<string>)
    ensures uuid.Some? ==> uuid.value != "" && exists c <- calls :: c.key == key && c.reference.uuid == uuid.value
    ensures uuid.None? ==> forall c <- calls :: c.key == key ==> c.reference.uuid == ""
  {
    if calls == [] then None
    else
      var c := calls[|calls|-1];
      assert calls == calls[..|calls|-1] + [c];
      if c.key == key && c.reference.uuid != "" then Some(c.reference.uuid) else LastUuid(calls[..|calls|-1], key)
  }

  lemma {:induction false} KeyedIsLast(calls: seq<Call>, power: Names, key: string)
    ensures key in Keyed(map[], calls, power) <==> LastUuid(calls, key).Some?
    ensures LastUuid(calls, key).Some?
            ==> Keyed(map[], calls, power)[key] == SubstrateOf(power, LastUuid(calls, key).value)
  {
    if calls != [] {
      KeyedIsLast(calls[..|calls|-1], power, key);
    }
  }

  lemma {:induction false} LinkedIsLast(calls: seq<Call>, keyed: Names, name: string)
    ensures name in Linked(map[], calls, keyed) <==> exists c <- calls :: c.reference.name == name && Leads(c, keyed)
    ensures name in Linked(map[], calls, keyed) ==>
      exists i | 0 <= i < |calls| :: calls[i].reference.name == name && Leads(calls[i], keyed)
        && Linked(map[], calls, keyed)[name] == keyed[calls[i].key]
        && forall k | i < k < |calls| :: calls[k].reference.name == name ==> !Leads(calls[k], keyed)
  {
    if calls != [] {
      var n := |calls| - 1;
      LinkedIsLast(calls[..n], keyed, name);
      assert calls == calls[..n] + [calls[n]];
      if calls[n].reference.name == name && Leads(calls[n], keyed) {
      } else if name in Linked(map[], calls[..n], keyed) {
        var i :| 0 <= i < n && calls[..n][i].reference.name == name && Leads(calls[..n][i], keyed)
          && Linked(map[], calls[..n], keyed)[name] == keyed[calls[..n][i].key]
          && forall k | i < k < n :: calls[..n][k].reference.name == name ==> !Leads(calls[..n][k], keyed);
        forall k | i < k < |calls| && calls[k].reference.name == name ensures !Leads(calls[k], keyed) {
          if k < n {
            assert calls[..n][k] == calls[k];
          }
        }
      }
    }
  }

  predicate SomeAction(actions: seq<Action>, uuid: string) {
    exists a <- actions :: RunbookUuid(a) == uuid
  }

  /** The substrate has a power action whose runbook has this uuid. */
  predicate Owns(s: Entity, uuid: string) {
    SomeAction(s.actions, uuid)
  }

  lemma SomeActionLast(actions: seq<Action>, uuid: string)
    requires actions != []
    ensures SomeAction(actions, uuid) <==>
              SomeAction(actions[..|actions|-1], uuid) || RunbookUuid(actions[|actions|-1]) == uuid
  {
    assert actions == actions[..|actions|-1] + [actions[|actions|-1]];
  }

  lemma {:induction false} PowerOfIs(substrate: string, actions: seq<Action>, m: Names, uuid: string)
    ensures uuid in PowerOf(substrate, actions, m) <==> uuid in m || SomeAction(actions, uuid)
    ensures SomeAction(actions, uuid) ==> PowerOf(substrate, actions, m)[uuid] == substrate
    ensures uuid in m && !SomeAction(actions, uuid) ==> PowerOf(substrate, actions, m)[uuid] == m[uuid]
  {
    hide SomeAction;
    if actions == [] {
      assert !SomeAction(actions, uuid) by { NoAction(uuid); }
    } else {
      PowerOfIs(substrate, actions[..|actions|-1], m, uuid);
      SomeActionLast(actions, uuid);
    }
  }

  lemma NoAction(uuid: string)
    ensures !SomeAction([], uuid)
  {
  }

  lemma {:induction false} PowerIsOwned(substrates: seq<Entity>, uuid: string)
    ensures uuid in PowerMap(substrates) <==> exists s <- substrates :: Owns(s, uuid)
    ensures uuid in PowerMap(substrates) ==> exists s <- substrates ::
                Owns(s, uuid) && s.name == PowerMap(substrates)[uuid]
  {
    hide SomeAction;
    if substrates != [] {
      var n := |substrates| - 1;
      PowerIsOwned(substrates[..n], uuid);
      PowerOfIs(substrates[n].name, substrates[n].actions, PowerMap(substrates[..n]), uuid);
      assert substrates == substrates[..n] + [substrates[n]];
      assert Owns(substrates[n], uuid) == SomeAction(substrates[n].actions, uuid);
    }
  }

  /** Of two substrates with a power action of one runbook, the later one counts. */
  lemma {:induction false} PowerIsLast(substrates: seq<Entity>, k: nat, uuid: string)
    requires k < |substrates| && OwnsRunbook(substrates[k], uuid)
    requires uuid != "" && forall i | k < i < |substrates| :: !OwnsRunbook(substrates[i], uuid)
    ensures uuid in PowerMap(substrates) && PowerMap(substrates)[uuid] == substrates[k].name
  {
    hide OwnsRunbook, SomeAction;
    var n := |substrates| - 1;
    PowerOfIs(substrates[n].name, substrates[n].actions, PowerMap(substrates[..n]), uuid);
    OwnsIs(substrates[n], uuid);
    if k < n {
      PowerIsLast(substrates[..n], k, uuid);
    }
  }

  /** The substrate has a power action whose runbook has this uuid. */
  predicate OwnsRunbook(s: Entity, uuid: string) {
    exists a <- s.actions :: a.held.Holds? && a.held.runbook.uuid == uuid
  }

  lemma OwnsIs(s: Entity, uuid: string)
    requires uuid != ""
    ensures OwnsRunbook(s, uuid) <==> SomeAction(s.actions, uuid)
  {
  }

  /** An exported call and a blueprint call of one key whose runbook uuid belongs to a substrate. */
  predicate Joined(x: Call, y: Call, s: Entity) {
    && x.key == y.key && y.reference.uuid != "" && (x.fromConfig ==> x.reference.name != "")
    && OwnsRunbook(s, y.reference.uuid)
  }

  /** Every entry of the result is witnessed by the three relations. */
  lemma TargetsAreJoined(substrates: seq<Entity>, bp: seq<seq<Entity>>, exported: seq<seq<Entity>>, name: string)
    returns (x: Call, y: Call, s: Entity)
    requires name in TargetMap(substrates, bp, exported)
    ensures x in AllCalls(exported) && y in AllCalls(bp) && s in substrates && x.reference.name == name
    ensures s.name == TargetMap(substrates, bp, exported)[name] && Joined(x, y, s)
  {
    hide Linked, Keyed, AllCalls, PowerMap;
    var power := PowerMap(substrates);
    var keyed := Keyed(map[], AllCalls(bp), power);
    x := LastLeading(AllCalls(exported), keyed, name);
    y, s := KeyJoined(substrates, AllCalls(bp), x);
  }

  lemma LastLeading(calls: seq<Call>, keyed: Names, name: string) returns (x: Call)
    requires name in Linked(map[], calls, keyed)
    ensures x in calls && x.reference.name == name && Leads(x, keyed)
            && Linked(map[], calls, keyed)[name] == keyed[x.key]
  {
    hide Linked;
    LinkedIsLast(calls, keyed, name);
    var i :| 0 <= i < |calls| && calls[i].reference.name == name && Leads(calls[i], keyed)
      && Linked(map[], calls, keyed)[name] == keyed[calls[i].key];
    x := calls[i];
  }

  lemma KeyJoined(substrates: seq<Entity>, calls: seq<Call>, x: Call) returns (y: Call, s: Entity)
    requires Leads(x, Keyed(map[], calls, PowerMap(substrates)))
    ensures y in calls && s in substrates && Joined(x, y, s)
    ensures s.name == Keyed(map[], calls, PowerMap(substrates))[x.key]
  {
    hide Keyed, PowerMap;
    KeyedIsLast(calls, PowerMap(substrates), x.key);
    y :| y in calls && y.key == x.key && y.reference.uuid == LastUuid(calls, x.key).value;
    PowerIsOwned(substrates, y.reference.uuid);
    s :| s in substrates && Owns(s, y.reference.uuid) && s.name == PowerMap(substrates)[y.reference.uuid];
    OwnsIs(s, y.reference.uuid);
  }

  /** Each key stands for at most one runbook among the blueprint's calls by uuid. */
  ghost predicate KeysMeanOne(calls: seq<Call>) {
    forall x, y | x in calls && y in calls ::
      x.key == y.key && x.reference.uuid != "" && y.reference.uuid != "" ==> x.reference.uuid == y.reference.uuid
  }

  /**
   Some exported call of the name leads to a machine: the last call of its key with a uuid is to a
   runbook that a named substrate owns.
   */
  predicate SomeLeads(substrates: seq<Entity>, bp: seq<seq<Entity>>, exported: seq<seq<Entity>>, name: string) {
    exists x <- AllCalls(exported) ::
      x.reference.name == name && (x.fromConfig ==> name != "") && MachineOf(substrates, bp, x.key) != ""
  }

  /** The machine a key leads to; empty when there is none. */
  function MachineOf(substrates: seq<Entity>, bp: seq<seq<Entity>>, key: string): string {
    match LastUuid(AllCalls(bp), key)
    case None => ""
    case Some(uuid) => SubstrateOf(PowerMap(substrates), uuid)
  }

  lemma KeyedIsMachine(substrates: seq<Entity>, bp: seq<seq<Entity>>, key: string)
    ensures var keyed, machine := Keyed(map[], AllCalls(bp), PowerMap(substrates)), MachineOf(substrates, bp, key);
      && (machine != "" ==> key in keyed) && (key in keyed ==> keyed[key] == machine)
  {
    hide Keyed, AllCalls, PowerMap;
    KeyedIsLast(AllCalls(bp), PowerMap(substrates), key);
  }

  /** Exactly when a runbook name has an entry, with no assumption on keys. */
  lemma TargetsExactly(substrates: seq<Entity>, bp: seq<seq<Entity>>, exported: seq<seq<Entity>>, name: string)
    ensures name in TargetMap(substrates, bp, exported) <==> SomeLeads(substrates, bp, exported, name)
  {
    hide Linked, Keyed, AllCalls, PowerMap, MachineOf;
    LinkedIsLast(AllCalls(exported), Keyed(map[], AllCalls(bp), PowerMap(substrates)), name);
    forall x <- AllCalls(exported)
      ensures Leads(x, Keyed(map[], AllCalls(bp), PowerMap(substrates)))
         <==> (x.fromConfig ==> x.reference.name != "") && MachineOf(substrates, bp, x.key) != ""
    {
      KeyedIsMachine(substrates, bp, x.key);
    }
  }

  // ----- exactly when every runbook gets its own machine

  /**
   The three relations, joined: an exported call of the name, a blueprint call of its key, and the
   machine that owns the called runbook.
   */
  ghost predicate InJoin(substrates: seq<Entity>, bp: seq<seq<Entity>>, exported: seq<seq<Entity>>, name: string,
                         machine: string) {
    exists x, y, s | InPayload(x, exported) && InPayload(y, bp) && s in substrates ::
      Joined(x, y, s) && x.reference.name == name && s.name == machine
  }

  /** No runbook name is joined to two machines. */
  ghost predicate OneMachine(substrates: seq<Entity>, bp: seq<seq<Entity>>, exported: seq<seq<Entity>>) {
    forall name, m, n ::
          InJoin(substrates, bp, exported, name, m) && InJoin(substrates, bp, exported, name, n) ==> m == n
  }

  /** The join of each name can be followed through the last call of some key. */
  ghost predicate EachLeads(substrates: seq<Entity>, bp: seq<seq<Entity>>, exported: seq<seq<Entity>>) {
    forall name, m :: InJoin(substrates, bp, exported, name, m) ==> SomeLeads(substrates, bp, exported, name)
  }

  /** The result maps each name to the machine it is joined to, and holds nothing else. */
  ghost predicate IsTheJoin(targets: Names, substrates: seq<Entity>, bp: seq<seq<Entity>>, exported: seq<seq<Entity>>) {
    forall name, m :: (name in targets && targets[name] == m) <==> InJoin(substrates, bp, exported, name, m)
  }

  /**
   The entries are exactly the join if and only if no name is joined to two machines and each joined
   name leads: a later task of the same key that calls a runbook no substrate owns does not.
   */
  lemma TargetsAreTheJoin(substrates: seq<Entity>, bp: seq<seq<Entity>>, exported: seq<seq<Entity>>)
    ensures IsTheJoin(TargetMap(substrates, bp, exported), substrates, bp, exported)
       <==> OneMachine(substrates, bp, exported) && EachLeads(substrates, bp, exported)
  {
    hide AllCalls, TargetMap, SomeLeads, InJoin;
    var targets := TargetMap(substrates, bp, exported);
    forall name | name in targets ensures InJoin(substrates, bp, exported, name, targets[name]) {
      EntryIsJoined(substrates, bp, exported, name);
    }
    forall name ensures name in targets <==> SomeLeads(substrates, bp, exported, name) {
      TargetsExactly(substrates, bp, exported, name);
    }
    if IsTheJoin(targets, substrates, bp, exported) {
      forall name, m, n | InJoin(substrates, bp, exported, name, m) && InJoin(substrates, bp, exported, name, n)
        ensures m == n
      {
        assert targets[name] == m && targets[name] == n;
      }
    }
  }

  lemma EntryIsJoined(substrates: seq<Entity>, bp: seq<seq<Entity>>, exported: seq<seq<Entity>>, name: string)
    requires name in TargetMap(substrates, bp, exported)
    ensures InJoin(substrates, bp, exported, name, TargetMap(substrates, bp, exported)[name])
  {
    hide AllCalls, TargetMap, Joined, InPayload;
    var x, y, s := TargetsAreJoined(substrates, bp, exported, name);
    CallsAre(exported, x);
    CallsAre(bp, y);
  }

  /** The two ways to fail, for one joined call: it has an entry if its own key still leads to a machine. */
  lemma JoinedHasTarget(substrates: seq<Entity>, bp: seq<seq<Entity>>, exported: seq<seq<Entity>>, x: Call, y: Call,
                        s: Entity)
    requires x in AllCalls(exported) && y in AllCalls(bp) && s in substrates && Joined(x, y, s)
    ensures LastUuid(AllCalls(bp), x.key).Some?
    ensures MachineOf(substrates, bp, x.key) != "" ==> x.reference.name in TargetMap(substrates, bp, exported)
  {
    hide AllCalls, PowerMap, TargetMap;
    TargetsExactly(substrates, bp, exported, x.reference.name);
  }

  /** With one meaning per key, each joined name leads, unless a substrate has no name. */
  lemma KeysMakeLead(substrates: seq<Entity>, bp: seq<seq<Entity>>, exported: seq<seq<Entity>>)
    requires KeysMeanOne(AllCalls(bp)) && forall e <- substrates :: e.name != ""
    ensures EachLeads(substrates, bp, exported)
  {
    hide AllCalls, PowerMap, TargetMap, InPayload;
    forall name, m | InJoin(substrates, bp, exported, name, m) ensures SomeLeads(substrates, bp, exported, name) {
      var x, y, s :| InPayload(x, exported) && InPayload(y, bp) && s in substrates && Joined(x, y, s)
          && x.reference.name == name;
      CallsAre(exported, x);
      CallsAre(bp, y);
      OwnUuidIsLast(substrates, bp, x, y, s);
    }
  }

  lemma OwnUuidIsLast(substrates: seq<Entity>, bp: seq<seq<Entity>>, x: Call, y: Call, s: Entity)
    requires KeysMeanOne(AllCalls(bp)) && forall e <- substrates :: e.name != ""
    requires y in AllCalls(bp) && s in substrates && Joined(x, y, s)
    ensures MachineOf(substrates, bp, x.key) != ""
  {
    hide AllCalls, PowerMap;
    PowerIsOwned(substrates, y.reference.uuid);
    OwnsIs(s, y.reference.uuid);
    var last := LastUuid(AllCalls(bp), x.key);
    assert last.Some?;
    var c :| c in AllCalls(bp) && c.key == x.key && c.reference.uuid == last.value;
    assert last.value == y.reference.uuid;
  }

  // ----- keys

  predicate Plain(s: string) {
    '_' !in s
  }

  /** A name without `_` ends no later than the first `_`. */
  lemma BarAfter(a: string, x: string, b: string, y: string)
    requires Plain(b) && a + "_" + x == b + "_" + y
    ensures |b| <= |a|
  {
    assert (a + "_" + x)[|a|] == '_';
    assert forall i | 0 <= i < |b| :: (b + "_" + y)[i] == b[i] && b[i] in b;
  }

  lemma SplitAtBar(a: string, x: string, b: string, y: string)
    requires Plain(a) && Plain(b) && a + "_" + x == b + "_" + y
    ensures a == b && x == y
  {
    var s, t := a + "_" + x, b + "_" + y;
    BarAfter(a, x, b, y);
    BarAfter(b, y, a, x);
    assert a == s[..|a|] == t[..|b|] == b;
    assert x == s[|a|+1..] && y == t[|b|+1..];
  }

  /** Keys identify entity, action and task when entity and action names hold no `_`. */
  lemma KeysAreTriples(e: string, a: string, t: string, e': string, a': string, t': string)
    requires Plain(e) && Plain(a) && Plain(e') && Plain(a')
    ensures Key(e, a, t) == Key(e', a', t') <==> e == e' && a == a' && t == t'
  {
    assert Key(e, a, t) == e + "_" + (a + "_" + t);
    assert Key(e', a', t') == e' + "_" + (a' + "_" + t');
    if Key(e, a, t) == Key(e', a', t') {
      SplitAtBar(e, a + "_" + t, e', a' + "_" + t');
      SplitAtBar(a, t, a', t');
    }
  }

  // ----- when keys are shared

  /** A substrate with one power action. */
  function Machine(name: string, uuid: string): Entity {
    Entity(name, [Action("start", Holds(Runbook(uuid, [])))], [])
  }

  /** An entity with one action, whose one task calls a runbook. */
  function Caller(entity: string, action: string, task: string, reference: Reference): Entity {
    Entity(entity, [Action(action, Holds(Runbook("", [Task(task, "CALL_RUNBOOK", Referring(reference))])))], [])
  }

  lemma CallOf(entity: string, action: string, task: string, reference: Reference)
    ensures EntityCalls(Caller(entity, action, task, reference)) == [Call(Key(entity, action, task), reference, false)]
  {
    hide Key;
    var e := Caller(entity, action, task, reference);
    var tasks := e.actions[0].held.runbook.tasks;
    assert tasks[..0] == [] && e.actions[..0] == [];
    assert TaskCalls(entity, action, tasks, false) == [] + [Call(Key(entity, action, task), reference, false)];
    assert ActionsCalls(entity, e.actions, false) == [] + ActionCalls(entity, e.actions[0], false);
  }

  lemma TwoCalls(a: Entity, b: Entity, x: Call, y: Call)
    requires EntityCalls(a) == [x] && EntityCalls(b) == [y]
    ensures AllCalls([[a, b]]) == [x, y]
  {
    hide EntityCalls;
    var one, two := [a], [a, b];
    assert one[..0] == [] && two[..1] == one;
    var all := [two];
    assert all[..0] == [];
    assert EntitiesCalls(one) == [] + [x];
    assert EntitiesCalls(two) == [x] + [y];
    assert AllCalls(all) == [] + EntitiesCalls(two);
  }

  lemma TwoMachines(first: string, second: string)
    ensures PowerMap([Machine(first, "u1"), Machine(second, "u2")]) == map["u1" := first, "u2" := second]
  {
    var a, b := Machine(first, "u1"), Machine(second, "u2");
    var one, two := [a], [a, b];
    assert one[..0] == [] && two[..1] == one;
    OneAction(first, a.actions[0], map[]);
    assert PowerMap(one) == map["u1" := first];
    OneAction(second, b.actions[0], PowerMap(one));
  }

  lemma OneAction(substrate: string, a: Action, m: Names)
    ensures PowerOf(substrate, [a], m) == m[RunbookUuid(a) := substrate]
  {
    assert [a][..0] == [];
  }

  /** A runbook name whose exported calls all have one key gets what that key leads to. */
  lemma KeyDecides(substrates: seq<Entity>, bp: seq<seq<Entity>>, exported: seq<seq<Entity>>, x: Call)
    requires x in AllCalls(exported) && (x.fromConfig ==> x.reference.name != "")
    requires forall z <- AllCalls(exported) :: z.reference.name == x.reference.name ==> z.key == x.key
    ensures var targets, machine := TargetMap(substrates, bp, exported), MachineOf(substrates, bp, x.key);
      && (x.reference.name in targets <==> machine != "")
      && (x.reference.name in targets ==> targets[x.reference.name] == machine)
  {
    hide Linked, Keyed, AllCalls, PowerMap, MachineOf;
    var keyed := Keyed(map[], AllCalls(bp), PowerMap(substrates));
    KeyedIsMachine(substrates, bp, x.key);
    LinkedIsLast(AllCalls(exported), keyed, x.reference.name);
    if x.reference.name in TargetMap(substrates, bp, exported) {
      var z := LastLeading(AllCalls(exported), keyed, x.reference.name);
    }
  }

  /**
   Any two exported calls of one key, whatever runbooks they call: both names get the machine of the
   last call of that key, or neither has an entry, so at most one machine's runbook is mapped right.
   */
  lemma SharedKeyMisleads(substrates: seq<Entity>, bp: seq<seq<Entity>>, exported: seq<seq<Entity>>, x: Call, z: Call)
    requires x in AllCalls(exported) && z in AllCalls(exported) && x.key == z.key
    requires (x.fromConfig ==> x.reference.name != "") && (z.fromConfig ==> z.reference.name != "")
    requires forall w <- AllCalls(exported) ::
                w.reference.name in {x.reference.name, z.reference.name} ==> w.key == x.key
    ensures var targets, machine := TargetMap(substrates, bp, exported), MachineOf(substrates, bp, x.key);
      && (x.reference.name in targets <==> z.reference.name in targets)
      && (x.reference.name in targets ==> targets[x.reference.name] == targets[z.reference.name] == machine)
  {
    hide AllCalls, TargetMap, MachineOf;
    KeyDecides(substrates, bp, exported, x);
    KeyDecides(substrates, bp, exported, z);
  }

  /** Two tasks of one key, one calling a runbook of the first machine and one of the second. */
  lemma SecondMachineWins(e: string, a: string, t: string, e': string, a': string, t': string, first: string,
                          second: string)
    requires Key(e, a, t) == Key(e', a', t') && second != ""
    ensures TargetMap([Machine(first, "u1"), Machine(second, "u2")],
                      [[Caller(e, a, t, Reference("u1", "")), Caller(e', a', t', Reference("u2", ""))]],
                      [[Caller(e, a, t, Reference("", "rb1")), Caller(e', a', t', Reference("", "rb2"))]])
            == map["rb1" := second, "rb2" := second]
  {
    hide Key;
    var key := Key(e, a, t);
    var x, y := Call(key, Reference("u1", ""), false), Call(key, Reference("u2", ""), false);
    var v, w := Call(key, Reference("", "rb1"), false), Call(key, Reference("", "rb2"), false);
    CallOf(e, a, t, x.reference);
    CallOf(e', a', t', y.reference);
    CallOf(e, a, t, v.reference);
    CallOf(e', a', t', w.reference);
    hide Caller, Machine, EntityCalls, AllCalls, PowerMap;
    TwoCalls(Caller(e, a, t, x.reference), Caller(e', a', t', y.reference), x, y);
    TwoCalls(Caller(e, a, t, v.reference), Caller(e', a', t', w.reference), v, w);
    TwoMachines(first, second);
    TwoLinked(key, x, y, v, w, map["u1" := first, "u2" := second]);
  }

  lemma {:induction false} TwoLinked(key: string, x: Call, y: Call, v: Call, w: Call, power: Names)
    requires x == Call(key, Reference("u1", ""), false) && y == Call(key, Reference("u2", ""), false)
    requires v == Call(key, Reference("", "rb1"), false) && w == Call(key, Reference("", "rb2"), false)
    requires "u2" in power && power["u2"] != ""
    ensures Linked(map[], [v, w], Keyed(map[], [x, y], power)) == map["rb1" := power["u2"], "rb2" := power["u2"]]
  {
    assert [x, y][..1] == [x] && [x][..0] == [] && [v, w][..1] == [v] && [v][..0] == [];
    var keyed := Keyed(map[], [x, y], power);
    assert keyed[key] == power["u2"];
    assert Linked(map[], [v], keyed) == map["rb1" := power["u2"]];
  }

  /** With a `_` in a name, different tasks can share a key, and a runbook gets the wrong machine. */
  lemma KeysCollide()
    ensures Key("web_app", "start", "t") == Key("web", "app_start", "t")
    ensures TargetMap([Machine("vm1", "u1"), Machine("vm2", "u2")],
                      [[Caller("web_app", "start", "t", Reference("u1", "")),
                        Caller("web", "app_start", "t", Reference("u2", ""))]],
                      [[Caller("web_app", "start", "t", Reference("", "rb1")),
                        Caller("web", "app_start", "t", Reference("", "rb2"))]])
            == map["rb1" := "vm2", "rb2" := "vm2"]
  {
    assert Key("web_app", "start", "t") == "web_app_start_t";
    assert Key("web", "app_start", "t") == "web_app_start_t";
    SecondMachineWins("web_app", "start", "t", "web", "app_start", "t", "vm1", "vm2");
  }
}
