/** What each part of the strip pass leaves for the next part, and one turn of each of its loops. */
module StripPasses {
  import opened Options
  import opened JsonTree
  import opened SecretSites
  import opened SecretWalk
  import opened SecretRoundTrip
  import opened SecretPlaces
  import opened SecretPayload
  import opened SecretLaw
  import opened SecretEntities

  // ----- what one pass leaves for the next

  /** Everything the strip pass changes. */
  datatype Work = Work(tree: Json, secretMap: map<string, Json>, secretVariables: seq<SecretRecord>,
                       notStripped: seq<KeptRecord>)

  /** The work after stripping the given sites, in order. */
  function After(w: Work, sites: seq<Site>): Work {
    Work(Apply(w.tree, StripEdits(sites)), w.secretMap, w.secretVariables + Records(sites), w.notStripped + Kept(sites))
  }

  lemma Compose(w: Work, a: seq<Site>, b: seq<Site>)
    ensures After(After(w, a), b) == After(w, a + b)
  {
    SitesSplit(a, b);
    ApplySplit(w.tree, StripEdits(a), StripEdits(b));
    Associate(w.secretVariables, Records(a), Records(b));
    Associate(w.notStripped, Kept(a), Kept(b));
  }

  lemma AfterTree(w: Work, sites: seq<Site>)
    ensures After(w, sites).tree == Apply(w.tree, StripEdits(sites))
  {
  }

  lemma Associate<T>(x: seq<T>, y: seq<T>, z: seq<T>)
    ensures x + y + z == x + (y + z)
  {
  }

  lemma WholePrefix<T>(s: seq<T>, i: nat)
    requires i == |s|
    ensures s[..i] == s
  {
  }

  lemma Nothing(w: Work)
    ensures After(w, []) == w
  {
  }

  lemma StillThere(j: Json, sites: seq<Site>, q: Path)
    requires forall s <- sites :: Diverge(s.path, q)
    ensures Lookup(Apply(j, StripEdits(sites)), q) == Lookup(j, q)
  {
    EditsMiss(sites, q);
    ApplyFrame(j, StripEdits(sites), q);
  }

  lemma MemberAt(j: Json, p: Path, k: string)
    ensures Get(Node(j, p), k) == Lookup(j, p + [Key(k)])
  {
    LookupSplit(j, p, [Key(k)]);
    assert Lookup(Node(j, p), [Key(k)]) == Get(Node(j, p), k);
  }

  lemma {:induction false} PathHead(p: Path, x: Step, q: Path)
    requires p < q && q[|p|] != x
    ensures Diverge(q, p + [x])
  {
    HeadsDiverge(p, q, p + [x]);
  }

  /** A member of the object at `p` that no site lies below is the same after the strip. */
  lemma {:induction false} MemberStays(j: Json, sites: seq<Site>, p: Path, k: string)
    requires forall s <- sites :: p < s.path && s.path[|p|] != Key(k)
    ensures Get(Node(Apply(j, StripEdits(sites)), p), k) == Get(Node(j, p), k)
  {
    forall s <- sites ensures Diverge(s.path, p + [Key(k)]) {
      PathHead(p, Key(k), s.path);
    }
    StillThere(j, sites, p + [Key(k)]);
    MemberAt(j, p, k);
    MemberAt(Apply(j, StripEdits(sites)), p, k);
  }

  /** The next element of a list is the same after earlier elements were stripped. */
  lemma RowStays(j: Json, sites: seq<Site>, p: Path, i: nat)
    requires Rows(sites, p, i)
    ensures Lookup(Apply(j, StripEdits(sites)), p + [Idx(i)]) == Lookup(j, p + [Idx(i)])
  {
    forall s <- sites ensures Diverge(s.path, p + [Idx(i)]) {
      PathHead(p, Idx(i), s.path);
    }
    StillThere(j, sites, p + [Idx(i)]);
  }

  lemma PopThenAssign(j: Json, p: Path, w: Json)
    requires Lookup(j, p).Some?
    ensures Write(Write(j, p + [VALUE], None), p, Some(w)) == Write(j, p, Some(w))
  {
    WriteSplit(j, p, [VALUE], None);
    if p != [] {
      WriteTwice(j, p, Some(Write(Lookup(j, p).value, [VALUE], None)), w);
    }
  }

  /** The context that `strip_action_secret_variables` builds when it is given none. */
  function ActionContext(obj: Json, head: string, context: string): string {
    if context == "" then head + "." + Text(obj, "name") + ".action_list" else context
  }

  /** Two nodes of one kind; what is no object is the same. */
  predicate Like(a: Json, b: Json) {
    a.Obj? == b.Obj? && (!a.Obj? ==> a == b)
  }

  /** Edits elsewhere, or of members of a node and below, leave its kind. */
  lemma {:induction false} LikeStays(j: Json, edits: seq<Edit>, p: Path)
    requires forall e | e in edits :: Diverge(e.path, p) || (p < e.path && e.path[|p|].Key?)
    ensures Like(Node(Apply(j, edits), p), Node(j, p))
    decreases |edits|
  {
    if edits != [] {
      var e := edits[0];
      assert e in edits;
      var k := Write(j, e.path, e.value);
      if Diverge(e.path, p) {
        WriteFrame(j, e.path, e.value, p);
      } else {
        assert e.path == p + e.path[|p|..];
        WriteBelow(j, p, e.path[|p|..], e.value);
      }
      LikeStays(k, edits[1..], p);
    }
  }

  lemma NodeKindStays(j: Json, sites: seq<Site>, p: Path)
    requires forall s | s in sites :: p < s.path && s.path[|p|].Key?
    ensures Like(Node(Apply(j, StripEdits(sites)), p), Node(j, p))
  {
    forall e | e in StripEdits(sites) ensures p < e.path && e.path[|p|].Key? {
      var s := EditsOfSites(sites, e);
      var x := OfSiteSuffix(e, s);
    }
    LikeStays(j, StripEdits(sites), p);
  }

  // ----- one turn of each loop

  lemma ListTurn(w: Work, variables: seq<Json>, i: nat, p: Path, f: Path, known: Known)
    requires ListAt(w.tree, p, variables) && i < |variables|
    ensures var before := After(w, ListSites(variables[..i], p, f, known));
      && Node(before.tree, p + [Idx(i)]) == variables[i]
      && After(before, VariableSites(variables[i], p + [Idx(i)], f + [Idx(i)], known))
          == After(w, ListSites(variables[..i+1], p, f, known))
  {
    RowStays(w.tree, ListSites(variables[..i], p, f, known), p, i);
    FirstOnes(variables, i);
    Compose(w, ListSites(variables[..i], p, f, known), VariableSites(variables[i], p + [Idx(i)], f + [Idx(i)], known));
  }

  lemma ActionTaskTurn(j: Json, tasks: seq<Json>, i: nat, p: Path, decompiled: Decompiled, context: string)
    requires ListAt(j, p, tasks) && i < |tasks|
    ensures ActionTaskListSites(tasks[..i+1], p, decompiled, context)
         == ActionTaskListSites(tasks[..i], p, decompiled, context)
             + ActionTaskSites(tasks[i], p + [Idx(i)], decompiled, context)
    ensures Node(Apply(j, StripEdits(ActionTaskListSites(tasks[..i], p, decompiled, context))), p + [Idx(i)])
            == tasks[i]
  {
    assert tasks[..i+1][..i] == tasks[..i];
    RowStays(j, ActionTaskListSites(tasks[..i], p, decompiled, context), p, i);
  }

  lemma ActionTurn(j: Json, actions: seq<Json>, i: nat, p: Path, decompiled: Decompiled, context: string)
    requires ListAt(j, p, actions) && i < |actions|
    ensures ActionListSites(actions[..i+1], p, decompiled, context)
         == ActionListSites(actions[..i], p, decompiled, context)
            + OneActionSites(actions[i], p + [Idx(i)], decompiled, context)
    ensures var k := Apply(j, StripEdits(ActionListSites(actions[..i], p, decompiled, context)));
      Node(k, p + [Idx(i)]) == actions[i] && Node(k, p + [Idx(i)] + [Key("runbook")]) == RunbookOf(actions[i])
  {
    assert actions[..i+1][..i] == actions[..i];
    RowStays(j, ActionListSites(actions[..i], p, decompiled, context), p, i);
    ChildBelow(Apply(j, StripEdits(ActionListSites(actions[..i], p, decompiled, context))), p + [Idx(i)], "runbook");
  }

  /** The walk stops where `Walked` says. */
  lemma WalkStops(actions: seq<Json>, i: nat)
    requires i <= Walked(actions)
    ensures i < |actions| && !Truthy(RunbookOf(actions[i])) ==> i == Walked(actions)
    ensures i < |actions| && Truthy(RunbookOf(actions[i])) ==> i < Walked(actions)
    ensures i == |actions| ==> i == Walked(actions)
  {
  }

  /** A walked action without a name, or one that ends the walk without a name, is an error. */
  lemma ActionsFail(actions: seq<Json>, i: nat, p: Path, decompiled: Decompiled, context: string)
    requires i <= Walked(actions) && i < |actions| && !IsText(actions[i], "name")
    ensures !Completes(ActionListSites(actions[..Walked(actions)], p, decompiled, context) + StopSites(actions, p))
  {
    var walked, stop := ActionListSites(actions[..Walked(actions)], p, decompiled, context), StopSites(actions, p);
    if i < Walked(actions) {
      OneFails([], p + [Idx(i)]);
      ActionFails(actions[..Walked(actions)], i, p, decompiled, context);
      CompletesBoth(walked, stop);
    } else {
      assert stop[0] in walked + stop;
    }
  }

  /** One action at which the strip fails fails the walk. */
  lemma {:induction false} ActionFails(actions: seq<Json>, i: nat, p: Path, decompiled: Decompiled, context: string)
    requires i < |actions| && !Completes(OneActionSites(actions[i], p + [Idx(i)], decompiled, context))
    ensures !Completes(ActionListSites(actions, p, decompiled, context))
  {
    hide OneActionSites, Completes;
    var n := |actions| - 1;
    var before, last := ActionListSites(actions[..n], p, decompiled, context),
          OneActionSites(actions[n], p + [Idx(n)], decompiled, context);
    assert ActionListSites(actions, p, decompiled, context) == before + last;
    hide ActionListSites;
    CompletesBoth(before, last);
    if i < n {
      ActionFails(actions[..n], i, p, decompiled, context);
    }
  }

  lemma RunbookTurn(j: Json, tasks: seq<Json>, i: nat, at: Path, decompiled: Decompiled, context: string)
    requires ListAt(j, at + [TASKS], tasks) && i < |tasks|
    ensures RunbookListSites(tasks[..i+1], at, decompiled, context)
         == RunbookListSites(tasks[..i], at, decompiled, context)
             + RunbookTaskSites(tasks[i], at, i, decompiled, context)
    ensures var k := Apply(j, StripEdits(RunbookListSites(tasks[..i], at, decompiled, context)));
      && Node(k, at + [TASKS] + [Idx(i)]) == tasks[i]
      && Node(k, at + [TASKS, Idx(i), ATTRS]) == OrNull(Get(tasks[i], "attrs"))
  {
    assert tasks[..i+1][..i] == tasks[..i];
    RowStays(j, RunbookListSites(tasks[..i], at, decompiled, context), at + [TASKS], i);
    assert at + [TASKS, Idx(i), ATTRS] == at + [TASKS] + [Idx(i)] + [ATTRS];
    ChildBelow(Apply(j, StripEdits(RunbookListSites(tasks[..i], at, decompiled, context))), at + [TASKS] + [Idx(i)],
               "attrs");
  }

  lemma OneSite(w: Work, s: Site)
    ensures After(w, [s]) ==
            Work(Apply(w.tree, SiteStrip(s)), w.secretMap,
                 w.secretVariables + (if Stripped(s) then [SecretRecord(s.filed, OrNull(s.value), s.name)] else []),
                 w.notStripped + (if KeptInPlace(s) then [KeptRecord(s.filed, OrNull(s.value))] else []))
  {
    assert [s] == [s] + [] && [s][1..] == [];
    assert StripEdits([s]) == SiteStrip(s) + StripEdits([]);
    var r := if Stripped(s) then [SecretRecord(s.filed, OrNull(s.value), s.name)] else [];
    var k := if KeptInPlace(s) then [KeptRecord(s.filed, OrNull(s.value))] else [];
    assert SiteStrip(s) + [] == SiteStrip(s) && r + [] == r && k + [] == k;
    assert Records([s]) == r + Records([]) && Kept([s]) == k + Kept([]);
  }

  lemma OneEdit(j: Json, e: Edit)
    ensures Apply(j, [e]) == Write(j, e.path, e.value)
  {
    assert [e][1..] == [];
  }

  // ----- one failing turn fails its loop

  lemma {:induction false} VariableFails(variables: seq<Json>, i: nat, p: Path, f: Path, known: Known)
    requires i < |variables|
    ensures var here := VariableSites(variables[i], p + [Idx(i)], f + [Idx(i)], known);
      && Completes(ListSites(variables[..i+1], p, f, known))
          == (Completes(ListSites(variables[..i], p, f, known)) && Completes(here))
      && (!Completes(here) ==> !Completes(ListSites(variables, p, f, known)))
  {
    hide VariableSites, Completes;
    var n := |variables| - 1;
    FirstOnes(variables, i);
    CompletesBoth(ListSites(variables[..i], p, f, known),
                  VariableSites(variables[i], p + [Idx(i)], f + [Idx(i)], known));
    if i < n {
      VariableFails(variables[..n], i, p, f, known);
      CompletesBoth(ListSites(variables[..n], p, f, known),
                    VariableSites(variables[n], p + [Idx(n)], f + [Idx(n)], known));
    } else {
      assert variables[..i+1] == variables;
    }
  }

  lemma {:induction false} TaskFails(tasks: seq<Json>, i: nat, p: Path, decompiled: Decompiled, context: string)
    requires i < |tasks|
    ensures var here := ActionTaskSites(tasks[i], p + [Idx(i)], decompiled, context);
      && Completes(ActionTaskListSites(tasks[..i+1], p, decompiled, context))
         == (Completes(ActionTaskListSites(tasks[..i], p, decompiled, context)) && Completes(here))
      && (!Completes(here) ==> !Completes(ActionTaskListSites(tasks, p, decompiled, context)))
  {
    hide ActionTaskSites, Completes;
    var n := |tasks| - 1;
    FirstOnes(tasks, i);
    CompletesBoth(ActionTaskListSites(tasks[..i], p, decompiled, context),
                  ActionTaskSites(tasks[i], p + [Idx(i)], decompiled, context));
    if i < n {
      TaskFails(tasks[..n], i, p, decompiled, context);
      CompletesBoth(ActionTaskListSites(tasks[..n], p, decompiled, context),
                    ActionTaskSites(tasks[n], p + [Idx(n)], decompiled, context));
    } else {
      assert tasks[..i+1] == tasks;
    }
  }

  lemma OneActionFails(actions: seq<Json>, i: nat, p: Path, decompiled: Decompiled, context: string)
    requires i < Walked(actions)
    ensures var here := OneActionSites(actions[i], p + [Idx(i)], decompiled, context);
      && Completes(ActionListSites(actions[..i+1], p, decompiled, context))
         == (Completes(ActionListSites(actions[..i], p, decompiled, context)) && Completes(here))
      && (!Completes(here) ==> !Completes(ActionListSites(actions[..Walked(actions)], p, decompiled, context)))
  {
    hide OneActionSites, Completes;
    FirstOnes(actions, i);
    CompletesBoth(ActionListSites(actions[..i], p, decompiled, context),
                  OneActionSites(actions[i], p + [Idx(i)], decompiled, context));
    if !Completes(OneActionSites(actions[i], p + [Idx(i)], decompiled, context)) {
      ActionFails(actions[..Walked(actions)], i, p, decompiled, context);
    }
  }

  /** At its end the walk has stripped exactly the walked actions. */
  lemma WalkEnds(w: Work, actions: seq<Json>, p: Path, decompiled: Decompiled, context: string)
    requires Walked(actions) < |actions| ==> IsText(actions[Walked(actions)], "name")
    ensures StopSites(actions, p) == []
    ensures ActionListSites(actions[..Walked(actions)], p, decompiled, context) + StopSites(actions, p)
         == ActionListSites(actions[..Walked(actions)], p, decompiled, context)
    ensures Walked(actions) == |actions| ==> actions[..Walked(actions)] == actions
  {
  }

  lemma {:induction false} RunbookTaskFails(tasks: seq<Json>, i: nat, p: Path, decompiled: Decompiled, context: string)
    requires i < |tasks|
    ensures var here := RunbookTaskSites(tasks[i], p, i, decompiled, context);
      && Completes(RunbookListSites(tasks[..i+1], p, decompiled, context))
         == (Completes(RunbookListSites(tasks[..i], p, decompiled, context)) && Completes(here))
      && (!Completes(here) ==> !Completes(RunbookListSites(tasks, p, decompiled, context)))
  {
    hide RunbookTaskSites, Completes;
    var n := |tasks| - 1;
    FirstOnes(tasks, i);
    CompletesBoth(RunbookListSites(tasks[..i], p, decompiled, context),
                  RunbookTaskSites(tasks[i], p, i, decompiled, context));
    if i < n {
      RunbookTaskFails(tasks[..n], i, p, decompiled, context);
      CompletesBoth(RunbookListSites(tasks[..n], p, decompiled, context),
                    RunbookTaskSites(tasks[n], p, n, decompiled, context));
    } else {
      assert tasks[..i+1] == tasks;
    }
  }

  lemma {:induction false} RowFails(rows: seq<Json>, i: nat, k: string, decompiled: Decompiled)
    requires i < |rows|
    ensures var here := AllSites(rows[i], [Key(k), Idx(i)], decompiled, k);
      && Completes(RowSites(rows[..i+1], k, decompiled))
          == (Completes(RowSites(rows[..i], k, decompiled)) && Completes(here))
      && (!Completes(here) ==> !Completes(RowSites(rows, k, decompiled)))
  {
    hide AllSites, Completes;
    var n := |rows| - 1;
    FirstOnes(rows, i);
    CompletesBoth(RowSites(rows[..i], k, decompiled), AllSites(rows[i], [Key(k), Idx(i)], decompiled, k));
    if i < n {
      RowFails(rows[..n], i, k, decompiled);
      CompletesBoth(RowSites(rows[..n], k, decompiled), AllSites(rows[n], [Key(k), Idx(n)], decompiled, k));
    } else {
      assert rows[..i+1] == rows;
    }
  }

  lemma NoFault(j: Json, k: string, decompiled: Decompiled)
    requires Listable(Get(j, k))
    ensures OneListSites(j, k, decompiled) == RowSites(Elements(j, k), k, decompiled)
  {
    hide RowSites;
  }

  lemma {:induction false} ListFails(j: Json, lists: seq<string>, i: nat, decompiled: Decompiled)
    requires i < |lists|
    ensures var here := OneListSites(j, lists[i], decompiled);
      && Completes(ListsSites(j, lists[..i+1], decompiled))
          == (Completes(ListsSites(j, lists[..i], decompiled)) && Completes(here))
      && (!Completes(here) ==> !Completes(ListsSites(j, lists, decompiled)))
  {
    hide OneListSites, Completes;
    var n := |lists| - 1;
    FirstOnes(lists, i);
    CompletesBoth(ListsSites(j, lists[..i], decompiled), OneListSites(j, lists[i], decompiled));
    if i < n {
      ListFails(j, lists[..n], i, decompiled);
      CompletesBoth(ListsSites(j, lists[..n], decompiled), OneListSites(j, lists[n], decompiled));
    } else {
      assert lists[..i+1] == lists;
    }
  }

  lemma OneListSame(j: Json, k: Json, list: string, decompiled: Decompiled)
    requires Get(k, list) == Get(j, list)
    ensures OneListSites(k, list, decompiled) == OneListSites(j, list, decompiled)
  {
    hide RowSites;
  }

  lemma {:induction false} ObjectFails(j: Json, objects: seq<string>, i: nat, decompiled: Decompiled)
    requires i < |objects|
    ensures var here := AllSites(Node(j, [Key(objects[i])]), [Key(objects[i])], decompiled, objects[i]);
      && Completes(ObjectsSites(j, objects[..i+1], decompiled))
          == (Completes(ObjectsSites(j, objects[..i], decompiled)) && Completes(here))
      && (!Completes(here) ==> !Completes(ObjectsSites(j, objects, decompiled)))
  {
    hide AllSites, Completes, Lookup;
    var n := |objects| - 1;
    FirstOnes(objects, i);
    CompletesBoth(ObjectsSites(j, objects[..i], decompiled),
                  AllSites(Node(j, [Key(objects[i])]), [Key(objects[i])], decompiled, objects[i]));
    if i < n {
      ObjectFails(j, objects[..n], i, decompiled);
      CompletesBoth(ObjectsSites(j, objects[..n], decompiled),
                    AllSites(Node(j, [Key(objects[n])]), [Key(objects[n])], decompiled, objects[n]));
    } else {
      assert objects[..i+1] == objects;
    }
  }

  lemma {:induction false} TypeFails(rows: seq<Json>, i: nat, decompiled: Decompiled)
    requires i < |rows|
    ensures var here := ResourceTypeSites(rows[i], [Key(TYPES), Idx(i)], decompiled);
      && Completes(ResourceTypeListSites(rows[..i+1], decompiled))
          == (Completes(ResourceTypeListSites(rows[..i], decompiled)) && Completes(here))
      && (!Completes(here) ==> !Completes(ResourceTypeListSites(rows, decompiled)))
  {
    hide ResourceTypeSites, Completes;
    var n := |rows| - 1;
    FirstOnes(rows, i);
    CompletesBoth(ResourceTypeListSites(rows[..i], decompiled),
                  ResourceTypeSites(rows[i], [Key(TYPES), Idx(i)], decompiled));
    if i < n {
      TypeFails(rows[..n], i, decompiled);
      CompletesBoth(ResourceTypeListSites(rows[..n], decompiled),
                    ResourceTypeSites(rows[n], [Key(TYPES), Idx(n)], decompiled));
    } else {
      assert rows[..i+1] == rows;
    }
  }

  // ----- the four passes over one object do not see each other

  lemma EntityLeaves(j: Json, at: Path, decompiled: Decompiled, field: string, context: string)
    requires field == "variable_list"
    ensures var k := Apply(j, StripEdits(EntitySites(Node(j, at), at, at, decompiled, field, context)));
      && (forall m <- {"name", "action_list", "task_definition_list", "authentication"} ::
            Get(Node(k, at), m) == Get(Node(j, at), m))
      && Like(Node(k, at), Node(j, at))
  {
    hide EntitySites, Apply, Lookup;
    NodeKindStays(j, EntitySites(Node(j, at), at, at, decompiled, field, context), at);
    MembersStay(j, EntitySites(Node(j, at), at, at, decompiled, field, context), at,
                {"name", "action_list", "task_definition_list", "authentication"});
  }

  lemma ActionsLeave(j: Json, at: Path, decompiled: Decompiled, context: string)
    ensures var k := Apply(j, StripEdits(ActionSites(Node(j, at), at, decompiled, context)));
      && (forall m <- {"name", "task_definition_list", "authentication"} :: Get(Node(k, at), m) == Get(Node(j, at), m))
      && Like(Node(k, at), Node(j, at))
  {
    hide ActionSites, Apply, Lookup;
    NodeKindStays(j, ActionSites(Node(j, at), at, decompiled, context), at);
    MembersStay(j, ActionSites(Node(j, at), at, decompiled, context), at,
                {"name", "task_definition_list", "authentication"});
  }

  lemma RunbookLeaves(j: Json, at: Path, decompiled: Decompiled, context: string)
    ensures var k := Apply(j, StripEdits(RunbookSites(Node(j, at), at, decompiled, context)));
      && (forall m <- {"name", "authentication"} :: Get(Node(k, at), m) == Get(Node(j, at), m))
      && Like(Node(k, at), Node(j, at))
  {
    hide RunbookSites, Apply, Lookup;
    NodeKindStays(j, RunbookSites(Node(j, at), at, decompiled, context), at);
    MembersStay(j, RunbookSites(Node(j, at), at, decompiled, context), at, {"name", "authentication"});
  }

  /** The whole object is passed without an error when its parts are, and it has a name. */
  lemma AllCompletes(o: Json, p: Path, decompiled: Decompiled, head: string)
    ensures Completes(AllSites(o, p, decompiled, head)) <==>
      && Completes(EntitySites(o, p, p, decompiled, "variable_list", head)) && IsText(o, "name")
      && Completes(ActionSites(o, p, decompiled, head + "." + Text(o, "name") + ".action_list"))
      && Completes(RunbookSites(o, p, decompiled, head + "." + Text(o, "name") + ".task_definition_list"))
      && Completes(AuthSites(o, p, p, decompiled, head))
  {
    hide EntitySites, ActionSites, RunbookSites, AuthSites, Completes;
    var a := EntitySites(o, p, p, decompiled, "variable_list", head);
    if !IsText(o, "name") {
      OneFails(a, p + [Key("action_list")]);
    } else {
      var b := ActionSites(o, p, decompiled, head + "." + Text(o, "name") + ".action_list");
      var c := RunbookSites(o, p, decompiled, head + "." + Text(o, "name") + ".task_definition_list");
      CompletesBoth(a, b);
      CompletesBoth(a + b, c);
      CompletesBoth(a + b + c, AuthSites(o, p, p, decompiled, head));
    }
  }

  lemma OneFails(sites: seq<Site>, p: Path)
    ensures !Completes(sites + [MissingAt(p, p)]) && !Completes([MissingAt(p, p)])
  {
    assert MissingAt(p, p) in sites + [MissingAt(p, p)] && MissingAt(p, p) in [MissingAt(p, p)];
  }

  lemma AllInFour(w: Work, o: Json, at: Path, decompiled: Decompiled, head: string)
    requires IsText(o, "name")
    ensures var w1 := After(w, EntitySites(o, at, at, decompiled, "variable_list", head));
      var w2 := After(w1, ActionSites(o, at, decompiled, head + "." + Text(o, "name") + ".action_list"));
      var w3 := After(w2, RunbookSites(o, at, decompiled, head + "." + Text(o, "name") + ".task_definition_list"));
      After(w3, AuthSites(o, at, at, decompiled, head)) == After(w, AllSites(o, at, decompiled, head))
  {
    hide EntitySites, ActionSites, RunbookSites, AuthSites, After, Text;
    ComposeFour(w, EntitySites(o, at, at, decompiled, "variable_list", head),
                ActionSites(o, at, decompiled, head + "." + Text(o, "name") + ".action_list"),
                RunbookSites(o, at, decompiled, head + "." + Text(o, "name") + ".task_definition_list"),
                AuthSites(o, at, at, decompiled, head));
  }

  lemma EntitySame(a: Json, b: Json, p: Path, f: Path, decompiled: Decompiled, field: string, context: string)
    requires Get(a, "name") == Get(b, "name") && Get(a, field) == Get(b, field) && Like(a, b)
    ensures EntitySites(a, p, f, decompiled, field, context) == EntitySites(b, p, f, decompiled, field, context)
  {
  }

  lemma ComposeFour(w: Work, a: seq<Site>, b: seq<Site>, c: seq<Site>, d: seq<Site>)
    ensures After(After(After(After(w, a), b), c), d) == After(w, a + b + c + d)
  {
    Compose(w, a, b);
    Compose(w, a + b, c);
    Compose(w, a + b + c, d);
  }

  lemma TaskPasswordExists(j: Json, at: Path)
    ensures var auth := Node(Node(j, at), TASK_AUTH);
      IsBasic(auth) && Node(auth, BASIC_PASSWORD).Obj? ==> Lookup(j, at + (TASK_AUTH + BASIC_PASSWORD)).Some?
  {
    LookupSplit(j, at, TASK_AUTH + BASIC_PASSWORD);
    LookupSplit(Node(j, at), TASK_AUTH, BASIC_PASSWORD);
  }

  lemma AuthPasswordExists(j: Json, at: Path)
    ensures OrNull(Get(Node(Node(j, at), [Key("authentication")]), "password")).Obj?
            ==> Lookup(j, at + [Key("authentication"), Key("password")]).Some?
  {
    var obj := Node(j, at);
    LookupSplit(j, at, [Key("authentication"), Key("password")]);
    NodeOfKey(obj, "authentication");
    MemberOf(obj, "authentication", "password");
  }

  lemma AuthHeads(auth: seq<Site>, at: Path)
    requires forall s <- auth :: s.path == at + [Key("authentication"), Key("password")]
    ensures Headed(auth, at, Key("authentication"))
  {
  }

  lemma MembersStay(j: Json, sites: seq<Site>, p: Path, members: set<string>)
    requires forall s <- sites :: p < s.path && s.path[|p|].Key? && s.path[|p|].key !in members
    ensures forall k <- members :: Get(Node(Apply(j, StripEdits(sites)), p), k) == Get(Node(j, p), k)
  {
    forall k <- members ensures Get(Node(Apply(j, StripEdits(sites)), p), k) == Get(Node(j, p), k) {
      MemberStays(j, sites, p, k);
    }
  }

  lemma NodeOfKey(j: Json, k: string)
    ensures Node(j, [Key(k)]) == OrNull(Get(j, k))
  {
    assert Lookup(j, [Key(k)]) == Get(j, k);
  }

  lemma AuthSame(a: Json, b: Json, p: Path, f: Path, decompiled: Decompiled, context: string)
    requires Get(a, "name") == Get(b, "name") && Get(a, "authentication") == Get(b, "authentication") && Like(a, b)
    ensures AuthSites(a, p, f, decompiled, context) == AuthSites(b, p, f, decompiled, context)
  {
    NodeOfKey(a, "authentication");
    NodeOfKey(b, "authentication");
  }

  /** Stripping a variable leaves its options for the second half of the turn. */
  lemma OptionsStay(j: Json, own: seq<Site>, p: Path, f: Path)
    requires forall s <- own :: s.kind in {Variable, Missing} && s.path == p
    ensures OptionSites(Node(Apply(j, StripEdits(own)), p), p, f) == OptionSites(Node(j, p), p, f)
  {
    var k := Apply(j, StripEdits(own));
    var q := p + [Key("options")];
    forall e <- StripEdits(own) ensures Diverge(e.path, q) {
      var s := EditOrigin(own, e);
      DivergeUnder(p, e.path[|p|..], [Key("options")]);
      assert e.path == p + e.path[|p|..];
    }
    ApplyFrame(j, StripEdits(own), q);
    MemberAt(j, p, "options");
    MemberAt(k, p, "options");
    OptionAuth(Node(j, p));
    OptionAuth(Node(k, p));
  }

  lemma OptionAuth(v: Json)
    ensures Node(v, OPTION_AUTH) == Node(OrNull(Get(v, "options")), [Key("attrs"), Key("authentication")])
    ensures Node(v, OPTION_AUTH[..1]) == OrNull(Get(v, "options"))
    ensures Node(v, OPTION_AUTH[..2]) == Node(OrNull(Get(v, "options")), [Key("attrs")])
  {
    LookupSplit(v, [Key("options")], [Key("attrs")]);
    assert OPTION_AUTH[..2] == [Key("options")] + [Key("attrs")] && OPTION_AUTH[..1] == [Key("options")];
    LookupSplit(v, [Key("options")], [Key("attrs"), Key("authentication")]);
    assert OPTION_AUTH == [Key("options")] + [Key("attrs"), Key("authentication")];
    assert Lookup(v, [Key("options")]) == Get(v, "options");
  }

  /** Stripping a task's password leaves the task's headers. */
  lemma HeadersStay(j: Json, auth: seq<Site>, at: Path, decompiled: Decompiled, context: string)
    requires forall s <- auth :: s.path == at + TASK_AUTH + BASIC_PASSWORD
    ensures HeaderSites(Node(Apply(j, StripEdits(auth)), at + [ATTRS]), at + [ATTRS], at + [ATTRS], decompiled, context)
         == HeaderSites(Node(j, at + [ATTRS]), at + [ATTRS], at + [ATTRS], decompiled, context)
  {
    forall s <- auth ensures at + [ATTRS] < s.path && s.path[|at|+1] == Key("authentication") {
      assert s.path == at + [ATTRS] + ([Key("authentication")] + BASIC_PASSWORD);
    }
    MemberStays(j, auth, at + [ATTRS], "headers");
    NodeKindStays(j, auth, at + [ATTRS]);
    HeadersSame(Node(j, at + [ATTRS]), Node(Apply(j, StripEdits(auth)), at + [ATTRS]), at + [ATTRS], at + [ATTRS],
                decompiled, context);
  }

  lemma HeadersSame(a: Json, b: Json, p: Path, f: Path, decompiled: Decompiled, context: string)
    requires Get(a, "headers") == Get(b, "headers") && Like(a, b)
    ensures HeaderSites(a, p, f, decompiled, context) == HeaderSites(b, p, f, decompiled, context)
  {
  }

  // ----- secrets held by name

  function Held(w: Work, holders: seq<Holder>): Work {
    Work(Apply(w.tree, HolderStrip(holders)), w.secretMap + SecretMap(holders), w.secretVariables, w.notStripped)
  }

  lemma NoneHeld(w: Work)
    ensures Held(w, []) == w
  {
    assert w.secretMap + map[] == w.secretMap;
  }

  /** One holder's secret moved to the secret map. */
  function HeldHere(w: Work, h: Holder): Work {
    if h.stripped then
      w.(tree := Write(w.tree, h.path, Some(h.placeholder)), secretMap := w.secretMap[h.name := Popped(h.secret)])
    else w
  }

  lemma HeldOne(w: Work, holders: seq<Holder>)
    requires |holders| <= 1
    ensures Held(w, holders) == if holders == [] then w else HeldHere(w, holders[0])
  {
    if holders == [] {
      NoneHeld(w);
    } else {
      var h := holders[0];
      assert holders[..0] == [] && HolderStrip([]) == [] && SecretMap([]) == map[];
      assert HolderStrip(holders) == (if h.stripped then [Edit(h.path, Some(h.placeholder))] else []);
      assert SecretMap(holders) == (if h.stripped then map[h.name := Popped(h.secret)] else map[]);
      if h.stripped {
        OneEdit(w.tree, Edit(h.path, Some(h.placeholder)));
        assert w.secretMap + map[h.name := Popped(h.secret)] == w.secretMap[h.name := Popped(h.secret)];
      } else {
        assert w.secretMap + map[] == w.secretMap;
      }
    }
  }

  lemma HeldTree(w: Work, holders: seq<Holder>)
    ensures Held(w, holders).tree == Apply(w.tree, HolderStrip(holders))
  {
  }

  lemma HeldTwice(w: Work, a: seq<Holder>, b: seq<Holder>)
    ensures Held(Held(w, a), b) == Held(w, a + b)
  {
    HolderSplit(a, b);
    ApplySplit(w.tree, HolderStrip(a), HolderStrip(b));
    assert w.secretMap + SecretMap(a) + SecretMap(b) == w.secretMap + (SecretMap(a) + SecretMap(b));
  }

  /** Stripping the variables of an action's runbook leaves its tasks. */
  lemma VariablesLeaveTasks(j: Json, at: Path, decompiled: Decompiled, context: string)
    ensures var k := Apply(j, StripEdits(EntitySites(Node(j, at), at, at, decompiled, "variable_list", context)));
      ActionTasksSites(Node(k, at), at, decompiled, context) == ActionTasksSites(Node(j, at), at, decompiled, context)
  {
    hide EntitySites, ActionTaskListSites;
    MembersStay(j, EntitySites(Node(j, at), at, at, decompiled, "variable_list", context), at,
                {"name", "task_definition_list"});
  }

  lemma {:induction false} HolderSplit(a: seq<Holder>, b: seq<Holder>)
    ensures HolderStrip(a + b) == HolderStrip(a) + HolderStrip(b)
    ensures SecretMap(a + b) == SecretMap(a) + SecretMap(b)
  {
    if b == [] {
      assert a + b == a;
      assert SecretMap(a) + map[] == SecretMap(a);
    } else {
      var n := |b| - 1;
      assert (a + b)[..|a + b|-1] == a + b[..n];
      HolderSplit(a, b[..n]);
      Associate(HolderStrip(a), HolderStrip(b[..n]),
                if b[n].stripped then [Edit(b[n].path, Some(b[n].placeholder))] else []);
    }
  }

  lemma RootList(j: Json, k: string)
    ensures ListAt(j, [Key(k)], Elements(j, k))
  {
    ElementsAt(j, [], k);
    assert [] + [Key(k)] == [Key(k)] && Node(j, []) == j;
  }

  lemma CredentialTurn(w: Work, credentials: seq<Json>, i: nat, known: Known)
    requires credentials == Elements(w.tree, CREDENTIALS) && i < |credentials|
    ensures var before := Held(w, CredentialHolders(credentials[..i], known));
      && Node(before.tree, [Key(CREDENTIALS), Idx(i)]) == credentials[i]
      && Held(w, CredentialHolders(credentials[..i+1], known))
          == HeldHere(before, CredentialHolder(credentials[i], i, known))
  {
    hide IsModified, Apply, Lookup, HolderStrip, SecretMap;
    var holders := CredentialHolders(credentials[..i], known);
    var h := CredentialHolder(credentials[i], i, known);
    assert credentials[..i+1][..i] == credentials[..i];
    assert CredentialHolders(credentials[..i+1], known) == holders + [h];
    HeldTwice(w, holders, [h]);
    HeldOne(Held(w, holders), [h]);
    CredentialStays(w.tree, holders, i);
    RootList(w.tree, CREDENTIALS);
    assert [Key(CREDENTIALS), Idx(i)] == [Key(CREDENTIALS)] + [Idx(i)];
  }

  lemma CredentialStays(j: Json, holders: seq<Holder>, i: nat)
    requires |holders| == i && forall k | 0 <= k < i :: holders[k].path == [Key(CREDENTIALS), Idx(k), Key("secret")]
    ensures Lookup(Apply(j, HolderStrip(holders)), [Key(CREDENTIALS), Idx(i)]) == Lookup(j, [Key(CREDENTIALS), Idx(i)])
  {
    var q := [Key(CREDENTIALS), Idx(i)];
    forall g <- holders ensures Diverge(g.path, q) {
      assert Diverge(g.path[1..], q[1..]);
    }
    HoldersMiss(holders, map[], q);
    ApplyFrame(j, HolderStrip(holders), q);
  }

  lemma CredentialsLeaveAuth(j: Json, known: Known, authKnown: Known, strips: bool)
    ensures AuthHolders(Apply(j, HolderStrip(CredentialHolders(Elements(j, CREDENTIALS), known))), authKnown, strips)
         == AuthHolders(j, authKnown, strips)
  {
    CredentialsLeave(j, known, "authentication");
  }

  lemma CredentialsLeave(j: Json, known: Known, k: string)
    requires k != CREDENTIALS
    ensures Get(Apply(j, HolderStrip(CredentialHolders(Elements(j, CREDENTIALS), known))), k) == Get(j, k)
  {
    var holders := CredentialHolders(Elements(j, CREDENTIALS), known);
    HoldersMiss(holders, map[], [Key(k)]);
    ApplyFrame(j, HolderStrip(holders), [Key(k)]);
    assert Lookup(j, [Key(k)]) == Get(j, k);
    var j' := Apply(j, HolderStrip(holders));
    assert Lookup(j', [Key(k)]) == Get(j', k);
  }

  // ----- lists, objects, resource types

  lemma NextRowStays(j: Json, rows: seq<Json>, i: nat, k: string, decompiled: Decompiled)
    requires ListAt(j, [Key(k)], rows) && i < |rows|
    ensures Node(Apply(j, StripEdits(RowSites(rows[..i], k, decompiled))), [Key(k), Idx(i)]) == rows[i]
  {
    RowsWellPlaced(j, rows[..i], k, decompiled);
    HomeRows(RowSites(rows[..i], k, decompiled), k, i);
    NextStays(j, RowSites(rows[..i], k, decompiled), k, rows, i);
  }

  lemma NextStays(j: Json, sites: seq<Site>, k: string, rows: seq<Json>, i: nat)
    requires ListAt(j, [Key(k)], rows) && i < |rows| && Rows(sites, [Key(k)], i)
    ensures Node(Apply(j, StripEdits(sites)), [Key(k), Idx(i)]) == rows[i]
  {
    assert [Key(k)] + [Idx(i)] == [Key(k), Idx(i)];
    RowStays(j, sites, [Key(k)], i);
  }

  lemma RowTurn(w: Work, rows: seq<Json>, i: nat, k: string, decompiled: Decompiled)
    requires ListAt(w.tree, [Key(k)], rows) && i < |rows|
    ensures var before := After(w, RowSites(rows[..i], k, decompiled));
      && Node(before.tree, [Key(k), Idx(i)]) == rows[i]
      && After(w, RowSites(rows[..i+1], k, decompiled))
          == After(before, AllSites(rows[i], [Key(k), Idx(i)], decompiled, k))
  {
    NextRowStays(w.tree, rows, i, k, decompiled);
    LastRow(rows[..i+1], k, decompiled);
    FirstOnes(rows, i);
    Compose(w, RowSites(rows[..i], k, decompiled), AllSites(rows[i], [Key(k), Idx(i)], decompiled, k));
  }

  lemma LastRow(rows: seq<Json>, k: string, decompiled: Decompiled)
    requires rows != []
    ensures var n := |rows| - 1;
      RowSites(rows, k, decompiled) == RowSites(rows[..n], k, decompiled)
          + AllSites(rows[n], [Key(k), Idx(n)], decompiled, k)
  {
  }

  lemma FirstOnes<T>(s: seq<T>, i: nat)
    requires i < |s|
    ensures s[..i+1][..i] == s[..i] && s[..i+1][i] == s[i] && |s[..i+1]| == i + 1
  {
  }

  lemma HomeRows(sites: seq<Site>, k: string, n: nat)
    requires Home(sites, [Key(k)])
    requires forall s <- sites :: |s.path| > 1 && s.path[1].Idx? && s.path[1].idx < n
    ensures Rows(sites, [Key(k)], n)
  {
  }

  lemma {:induction false} RootStays(j: Json, sites: seq<Site>, k: string)
    requires forall s <- sites :: s.path != [] && s.path[0] != Key(k)
    ensures Get(Apply(j, StripEdits(sites)), k) == Get(j, k)
  {
    assert Node(j, []) == j && Node(Apply(j, StripEdits(sites)), []) == Apply(j, StripEdits(sites));
    MemberStays(j, sites, [], k);
  }

  lemma ListsTurn(j: Json, lists: seq<string>, i: nat, decompiled: Decompiled)
    requires (forall i, k | 0 <= i < k < |lists| :: lists[i] != lists[k]) && "authentication" !in lists && i < |lists|
    ensures ListsSites(j, lists[..i+1], decompiled)
         == ListsSites(j, lists[..i], decompiled) + OneListSites(j, lists[i], decompiled)
    ensures Get(Apply(j, StripEdits(ListsSites(j, lists[..i], decompiled))), lists[i]) == Get(j, lists[i])
  {
    assert lists[..i+1][..i] == lists[..i];
    ListsWellPlaced(j, lists[..i], decompiled);
    RootStays(j, ListsSites(j, lists[..i], decompiled), lists[i]);
  }

  lemma NextName(lists: seq<string>, objects: seq<string>, i: nat)
    requires EntityNames(lists, objects) && i < |objects|
    ensures EntityNames(lists, objects[..i]) && objects[i] !in lists + objects[..i]
  {
    var all, fewer := lists + objects, lists + objects[..i];
    assert forall m | 0 <= m < |fewer| :: fewer[m] == all[m];
    assert all[|lists| + i] == objects[i];
    assert forall m | 0 <= m < |objects[..i]| :: objects[..i][m] in objects;
  }

  /** The sites of all lists and of the first objects, and that the next object is none of them. */
  lemma ObjectsBefore(j: Json, lists: seq<string>, objects: seq<string>, i: nat, decompiled: Decompiled)
    requires EntityNames(lists, objects) && i < |objects|
    ensures forall s <- ListsSites(j, lists, decompiled) + ObjectsSites(j, objects[..i], decompiled) ::
              s.path != [] && s.path[0] != Key(objects[i])
  {
    NextName(lists, objects, i);
    NamesOfLists(lists, objects);
    ListsWellPlaced(j, lists, decompiled);
    ObjectsWellPlaced(j, ListsSites(j, lists, decompiled), lists, objects[..i], decompiled);
  }

  lemma ObjectsTurn(j: Json, lists: seq<string>, objects: seq<string>, i: nat, decompiled: Decompiled)
    requires EntityNames(lists, objects) && i < |objects|
    ensures ObjectsSites(j, objects[..i+1], decompiled)
         == ObjectsSites(j, objects[..i], decompiled)
            + AllSites(Node(j, [Key(objects[i])]), [Key(objects[i])], decompiled, objects[i])
    ensures var k := Apply(Apply(j, StripEdits(ListsSites(j, lists, decompiled))),
                           StripEdits(ObjectsSites(j, objects[..i], decompiled)));
      Node(k, [Key(objects[i])]) == Node(j, [Key(objects[i])])
  {
    ObjectsBefore(j, lists, objects, i, decompiled);
    ObjectStays(j, ListsSites(j, lists, decompiled), ObjectsSites(j, objects[..i], decompiled), objects[i]);
    FirstOnes(objects, i);
    LastObject(j, objects[..i+1], decompiled);
  }

  lemma {:induction false} ObjectStays(j: Json, a: seq<Site>, b: seq<Site>, name: string)
    requires forall s <- a + b :: s.path != [] && s.path[0] != Key(name)
    ensures Node(Apply(Apply(j, StripEdits(a)), StripEdits(b)), [Key(name)]) == Node(j, [Key(name)])
  {
    SitesSplit(a, b);
    ApplySplit(j, StripEdits(a), StripEdits(b));
    RootStays(j, a + b, name);
    NodeOfKey(j, name);
    NodeOfKey(Apply(j, StripEdits(a + b)), name);
  }

  /** Members of one object that its sites are read from. */
  ghost predicate SameMembers(a: Json, b: Json) {
    && Like(a, b)
    && forall k <- {"name", "variable_list", "action_list", "task_definition_list", "authentication"} ::
         Get(a, k) == Get(b, k)
  }

  lemma AllSame(a: Json, b: Json, p: Path, decompiled: Decompiled, head: string)
    requires SameMembers(a, b)
    ensures AllSites(a, p, decompiled, head) == AllSites(b, p, decompiled, head)
  {
    hide EntitySites, ActionSites, RunbookSites, AuthSites;
    EntitySame(a, b, p, p, decompiled, "variable_list", head);
    ActionSame(a, b, p, decompiled, head + "." + Text(a, "name") + ".action_list");
    RunbookSame(a, b, p, decompiled, head + "." + Text(a, "name") + ".task_definition_list");
    AuthSame(a, b, p, p, decompiled, head);
    assert Text(a, "name") == Text(b, "name");
  }

  lemma ActionSame(a: Json, b: Json, p: Path, decompiled: Decompiled, context: string)
    requires Get(a, "action_list") == Get(b, "action_list") && Like(a, b)
    ensures ActionSites(a, p, decompiled, context) == ActionSites(b, p, decompiled, context)
  {
  }

  lemma RunbookSame(a: Json, b: Json, p: Path, decompiled: Decompiled, context: string)
    requires Get(a, "task_definition_list") == Get(b, "task_definition_list")
    ensures RunbookSites(a, p, decompiled, context) == RunbookSites(b, p, decompiled, context)
  {
  }

  lemma {:induction false} RowsSame(a: seq<Json>, b: seq<Json>, k: string, decompiled: Decompiled)
    requires |a| == |b| && forall i | 0 <= i < |a| :: SameMembers(a[i], b[i])
    ensures RowSites(a, k, decompiled) == RowSites(b, k, decompiled)
  {
    if a != [] {
      var n := |a| - 1;
      RowsSame(a[..n], b[..n], k, decompiled);
      AllSame(a[n], b[n], [Key(k), Idx(n)], decompiled, k);
    }
  }

  /** The strip of holders writes at no other place than secrets held by name. */
  predicate HolderWrite(e: Edit) {
    || (|e.path| == 3 && e.path[0] == Key(CREDENTIALS) && e.path[1].Idx? && e.path[2] == Key("secret"))
    || e.path == AUTH_PASSWORD
  }

  lemma HolderWrites(j: Json, decompiled: Decompiled)
    ensures forall e <- HolderStrip(Holders(j, decompiled, true)) :: HolderWrite(e)
  {
    var holders := Holders(j, decompiled, true);
    HolderEdits(holders, map[]);
    forall e <- HolderStrip(holders) ensures HolderWrite(e) {
      assert e in HolderStrip(holders) + HolderPatch(holders, map[]);
      var h :| h in holders && e.path == h.path;
    }
  }

  /** Taking secrets by name changes nothing that sites are read from. */
  lemma HoldersLeaveRows(j: Json, decompiled: Decompiled, k: string)
    requires k != "authentication"
    ensures OneListSites(Apply(j, HolderStrip(Holders(j, decompiled, true))), k, decompiled)
            == OneListSites(j, k, decompiled)
  {
    hide RowSites;
    var edits := HolderStrip(Holders(j, decompiled, true));
    HolderWrites(j, decompiled);
    if k == CREDENTIALS {
      CredentialRowsSame(j, edits, decompiled);
      ListKindKept(j, edits, CREDENTIALS);
    } else {
      forall e <- edits ensures Diverge(e.path, [Key(k)]) {
      }
      ApplyFrame(j, edits, [Key(k)]);
      OneStep(j, Key(k));
      OneStep(Apply(j, edits), Key(k));
    }
  }

  lemma CredentialRowsSame(j: Json, edits: seq<Edit>, decompiled: Decompiled)
    requires forall e <- edits :: HolderWrite(e)
    ensures RowSites(Elements(Apply(j, edits), CREDENTIALS), CREDENTIALS, decompiled)
         == RowSites(Elements(j, CREDENTIALS), CREDENTIALS, decompiled)
  {
    ListKept(j, edits, CREDENTIALS);
    var a, b := Elements(Apply(j, edits), CREDENTIALS), Elements(j, CREDENTIALS);
    forall i | 0 <= i < |a| ensures SameMembers(a[i], b[i]) {
      CredentialKind(j, edits, i);
      forall m | m in {"name", "variable_list", "action_list", "task_definition_list", "authentication"}
        ensures Get(a[i], m) == Get(b[i], m)
      {
        CredentialMember(j, edits, i, m);
      }
    }
    RowsSame(a, b, CREDENTIALS, decompiled);
  }

  lemma CredentialKind(j: Json, edits: seq<Edit>, i: nat)
    requires forall e <- edits :: HolderWrite(e)
    requires i < |Elements(j, CREDENTIALS)| && i < |Elements(Apply(j, edits), CREDENTIALS)|
    ensures Like(Elements(Apply(j, edits), CREDENTIALS)[i], Elements(j, CREDENTIALS)[i])
  {
    var p := [Key(CREDENTIALS), Idx(i)];
    forall e | e in edits ensures Diverge(e.path, p) || (p < e.path && e.path[|p|].Key?) {
      if e.path != AUTH_PASSWORD && e.path[1] != Idx(i) {
        assert Diverge(e.path[1..], p[1..]);
      }
    }
    LikeStays(j, edits, p);
    ElementMember(Apply(j, edits), i, "name");
    ElementMember(j, i, "name");
  }

  lemma CredentialMember(j: Json, edits: seq<Edit>, i: nat, m: string)
    requires forall e <- edits :: HolderWrite(e)
    requires m != "secret" && i < |Elements(j, CREDENTIALS)| && i < |Elements(Apply(j, edits), CREDENTIALS)|
    ensures Get(Elements(Apply(j, edits), CREDENTIALS)[i], m) == Get(Elements(j, CREDENTIALS)[i], m)
  {
    var q := [Key(CREDENTIALS), Idx(i), Key(m)];
    forall e <- edits ensures Diverge(e.path, q) {
      if e.path != AUTH_PASSWORD {
        assert Diverge(e.path[1..][1..], q[1..][1..]);
        assert Diverge(e.path[1..], q[1..]);
      }
    }
    ApplyFrame(j, edits, q);
    ElementMember(Apply(j, edits), i, m);
    ElementMember(j, i, m);
  }

  lemma {:induction false} ListsSame(j: Json, j': Json, lists: seq<string>, decompiled: Decompiled)
    requires forall k <- lists :: OneListSites(j', k, decompiled) == OneListSites(j, k, decompiled)
    ensures ListsSites(j', lists, decompiled) == ListsSites(j, lists, decompiled)
  {
    if lists != [] {
      ListsSame(j, j', lists[..|lists|-1], decompiled);
    }
  }

  lemma {:induction false} ObjectsSame(j: Json, j': Json, objects: seq<string>, decompiled: Decompiled)
    requires forall k <- objects :: Node(j', [Key(k)]) == Node(j, [Key(k)])
    ensures ObjectsSites(j', objects, decompiled) == ObjectsSites(j, objects, decompiled)
  {
    if objects != [] {
      ObjectsSame(j, j', objects[..|objects|-1], decompiled);
    }
  }

  lemma NamesOfLists(lists: seq<string>, objects: seq<string>)
    requires EntityNames(lists, objects)
    ensures (forall i, k | 0 <= i < k < |lists| :: lists[i] != lists[k]) && "authentication" !in lists
    ensures forall k <- objects :: k != "authentication" && k != CREDENTIALS
  {
    var all := lists + objects;
    assert forall m | 0 <= m < |lists| :: lists[m] == all[m];
    forall k <- objects ensures k in all {
      var i :| 0 <= i < |objects| && objects[i] == k;
      assert all[|lists| + i] == k;
    }
  }

  lemma HoldersLeaveObject(j: Json, decompiled: Decompiled, k: string)
    requires k != "authentication" && k != CREDENTIALS
    ensures Node(Apply(j, HolderStrip(Holders(j, decompiled, true))), [Key(k)]) == Node(j, [Key(k)])
  {
    var holders := Holders(j, decompiled, true);
    HoldersMiss(holders, map[], [Key(k)]);
    ApplyFrame(j, HolderStrip(holders), [Key(k)]);
  }

  lemma PayloadSame(j: Json, lists: seq<string>, objects: seq<string>, decompiled: Decompiled)
    requires EntityNames(lists, objects)
    ensures PayloadSites(Apply(j, HolderStrip(Holders(j, decompiled, true))), lists, objects, decompiled)
         == PayloadSites(j, lists, objects, decompiled)
  {
    var j' := Apply(j, HolderStrip(Holders(j, decompiled, true)));
    NamesOfLists(lists, objects);
    forall k <- lists ensures OneListSites(j', k, decompiled) == OneListSites(j, k, decompiled) {
      HoldersLeaveRows(j, decompiled, k);
    }
    ListsSame(j, j', lists, decompiled);
    forall k <- objects ensures Node(j', [Key(k)]) == Node(j, [Key(k)]) {
      HoldersLeaveObject(j, decompiled, k);
    }
    ObjectsSame(j, j', objects, decompiled);
  }

  lemma AllLeaveSchema(j: Json, p: Path, decompiled: Decompiled)
    ensures var k := Apply(j, StripEdits(AllSites(Node(j, p), p, decompiled, "resource_type_list")));
      && Get(Node(k, p), "schema_list") == Get(Node(j, p), "schema_list")
          && Get(Node(k, p), "name") == Get(Node(j, p), "name")
      && Like(Node(k, p), Node(j, p))
  {
    var sites := AllSites(Node(j, p), p, decompiled, "resource_type_list");
    AllSitesPlaced(Node(j, p), p, decompiled, "resource_type_list");
    forall s <- sites ensures p < s.path && s.path[|p|] !in {Key("schema_list"), Key("name")} {
      assert InObject(s, p);
    }
    forall s | s in sites ensures p < s.path && s.path[|p|].Key? {
      assert InObject(s, p);
    }
    NodeKindStays(j, sites, p);
    MemberStays(j, sites, p, "schema_list");
    MemberStays(j, sites, p, "name");
  }

  const TYPES := "resource_type_list"

  lemma NextTypeStays(j: Json, rows: seq<Json>, i: nat, decompiled: Decompiled)
    requires ListAt(j, [Key(TYPES)], rows) && i < |rows|
    ensures Node(Apply(j, StripEdits(ResourceTypeListSites(rows[..i], decompiled))), [Key(TYPES), Idx(i)]) == rows[i]
  {
    var sites := ResourceTypeListSites(rows[..i], decompiled);
    ResourceTypesWellPlaced(j, rows[..i], decompiled);
    HomeRows(sites, TYPES, i);
    NextStays(j, sites, TYPES, rows, i);
  }

  lemma LastType(rows: seq<Json>, decompiled: Decompiled)
    requires rows != []
    ensures var n := |rows| - 1;
      ResourceTypeListSites(rows, decompiled)
      == ResourceTypeListSites(rows[..n], decompiled) + ResourceTypeSites(rows[n], [Key(TYPES), Idx(n)], decompiled)
  {
  }

  lemma ResourceTypeTurn(w: Work, rows: seq<Json>, i: nat, decompiled: Decompiled)
    requires ListAt(w.tree, [Key(TYPES)], rows) && i < |rows|
    ensures var before := After(w, ResourceTypeListSites(rows[..i], decompiled));
      var p := [Key(TYPES), Idx(i)];
      && Node(before.tree, p) == rows[i]
      && After(w, ResourceTypeListSites(rows[..i+1], decompiled))
          == After(before, ResourceTypeSites(rows[i], p, decompiled))
  {
    NextTypeStays(w.tree, rows, i, decompiled);
    LastType(rows[..i+1], decompiled);
    FirstOnes(rows, i);
    Compose(w, ResourceTypeListSites(rows[..i], decompiled),
            ResourceTypeSites(rows[i], [Key(TYPES), Idx(i)], decompiled));
  }

  lemma CredentialsLeaveProvider(j: Json, known: Known, decompiled: Decompiled)
    ensures ProviderSites(Apply(j, HolderStrip(CredentialHolders(Elements(j, CREDENTIALS), known))), decompiled)
         == ProviderSites(j, decompiled)
  {
    hide CredentialHolders, HolderStrip, ProviderSites;
    var edits := HolderStrip(CredentialHolders(Elements(j, CREDENTIALS), known));
    var j' := Apply(j, edits);
    forall m | m in AFTER_TYPES + {TYPES} ensures Get(j', m) == Get(j, m) {
      CredentialsLeave(j, known, m);
    }
    CredentialEdits(j, known);
    RootOf(j);
    RootOf(j');
    LikeStays(j, edits, []);
    ProviderSame(j, j', decompiled);
  }

  lemma CredentialEdits(j: Json, known: Known)
    ensures forall e | e in HolderStrip(CredentialHolders(Elements(j, CREDENTIALS), known)) ::
                [] < e.path && e.path[0].Key?
  {
    var holders := CredentialHolders(Elements(j, CREDENTIALS), known);
    HolderEdits(holders, map[]);
    forall e | e in HolderStrip(holders) ensures [] < e.path && e.path[0].Key? {
      assert e in HolderStrip(holders) + HolderPatch(holders, map[]);
      var h :| h in holders && e.path == h.path;
    }
  }

  lemma ProviderSame(a: Json, b: Json, decompiled: Decompiled)
    requires SameFrom(b, a, AFTER_TYPES + {TYPES})
    ensures ProviderSites(b, decompiled) == ProviderSites(a, decompiled)
  {
    EntitySame(a, b, [], [], decompiled, "variable_list", "variable_list");
    EntitySame(a, b, [], [], decompiled, "auth_schema_list", "auth_schema_list");
    EndpointSame(a, b, decompiled);
    AccountSame(a, b, decompiled);
    ActionSame(a, b, [], decompiled, "action_list");
    hide EntitySites, SectionSites, AccountSites, ActionSites, ResourceTypeListSites;
    assert TypesSites(a, decompiled) == TypesSites(b, decompiled);
  }

  /** The six parts of a provider's strip, each reading the tree the parts before it left. */
  ghost predicate SixSteps(w0: Work, w1: Work, w2: Work, w3: Work, w4: Work, w5: Work, w6: Work,
                           decompiled: Decompiled) {
    && w1 == After(w0, TypesSites(w0.tree, decompiled))
    && w2 == After(w1, EntitySites(w0.tree, [], [], decompiled, "variable_list", "variable_list"))
    && w3 == After(w2, EntitySites(w0.tree, [], [], decompiled, "auth_schema_list", "auth_schema_list"))
    && w4 == After(w3, SectionSites(w0.tree, ENDPOINT_SCHEMA, decompiled, "endpoint_schema_list"))
    && w5 == After(w4, AccountSites(w0.tree, decompiled))
    && w6 == After(w5, ActionSites(w0.tree, [], decompiled, "action_list"))
  }

  lemma ProviderInSix(w0: Work, w1: Work, w2: Work, w3: Work, w4: Work, w5: Work, w6: Work, decompiled: Decompiled)
    requires SixSteps(w0, w1, w2, w3, w4, w5, w6, decompiled)
    ensures w6 == After(w0, ProviderSites(w0.tree, decompiled))
  {
    hide TypesSites, EntitySites, SectionSites, AccountSites, ActionSites, After;
    var j := w0.tree;
    ComposeSix(w0, TypesSites(j, decompiled),
               EntitySites(j, [], [], decompiled, "variable_list", "variable_list"),
               EntitySites(j, [], [], decompiled, "auth_schema_list", "auth_schema_list"),
               SectionSites(j, ENDPOINT_SCHEMA, decompiled, "endpoint_schema_list"),
               AccountSites(j, decompiled),
               ActionSites(j, [], decompiled, "action_list"));
  }

  lemma ProviderCompletes(j: Json, decompiled: Decompiled)
    ensures Completes(ProviderSites(j, decompiled)) <==>
      && Completes(TypesSites(j, decompiled))
      && Completes(EntitySites(j, [], [], decompiled, "variable_list", "variable_list"))
      && Completes(EntitySites(j, [], [], decompiled, "auth_schema_list", "auth_schema_list"))
      && Completes(SectionSites(j, ENDPOINT_SCHEMA, decompiled, "endpoint_schema_list"))
      && Completes(AccountSites(j, decompiled))
      && Completes(ActionSites(j, [], decompiled, "action_list"))
  {
    hide TypesSites, EntitySites, SectionSites, AccountSites, ActionSites, Completes;
    var a, b := TypesSites(j, decompiled), EntitySites(j, [], [], decompiled, "variable_list", "variable_list");
    var c := EntitySites(j, [], [], decompiled, "auth_schema_list", "auth_schema_list");
    var d, e := SectionSites(j, ENDPOINT_SCHEMA, decompiled, "endpoint_schema_list"), AccountSites(j, decompiled);
    CompletesBoth(a, b);
    CompletesBoth(a + b, c);
    CompletesBoth(a + b + c, d);
    CompletesBoth(a + b + c + d, e);
    CompletesBoth(a + b + c + d + e, ActionSites(j, [], decompiled, "action_list"));
  }

  lemma ComposeSix(w: Work, a: seq<Site>, b: seq<Site>, c: seq<Site>, d: seq<Site>, e: seq<Site>, f: seq<Site>)
    ensures After(After(After(After(After(After(w, a), b), c), d), e), f) == After(w, a + b + c + d + e + f)
  {
    ComposeFour(w, a, b, c, d);
    Compose(w, a + b + c + d, e);
    Compose(w, a + b + c + d + e, f);
  }

  /** Members of a provider that its parts are read from, from one part on. */
  predicate SameFrom(a: Json, b: Json, members: set<string>) {
    Like(a, b) && forall m | m in members :: Get(a, m) == Get(b, m)
  }

  const AFTER_TYPES := {"name", "variable_list", "auth_schema_list", "endpoint_schema", "test_account", "action_list"}
  const AFTER_VARIABLES := {"name", "auth_schema_list", "endpoint_schema", "test_account", "action_list"}
  const AFTER_SCHEMA := {"endpoint_schema", "test_account", "action_list"}
  const AFTER_ENDPOINT := {"test_account", "action_list"}
  const AFTER_ACCOUNT := {"action_list"}

  /** A part of the strip leaves the members that no site of it lies below. */
  lemma PartLeaves(j: Json, k: Json, sites: seq<Site>, before: set<string>, after: set<string>)
    requires SameFrom(k, j, before) && after <= before
    requires forall s | s in sites :: s.path != [] && s.path[0].Key? && s.path[0].key !in after
    ensures SameFrom(Apply(k, StripEdits(sites)), j, after)
  {
    var t := Apply(k, StripEdits(sites));
    RootOf(k);
    RootOf(t);
    forall s | s in sites ensures [] < s.path {
    }
    NodeKindStays(k, sites, []);
    forall m | m in after ensures Get(t, m) == Get(j, m) {
      RootStays(k, sites, m);
    }
  }

  lemma RootOf(j: Json)
    ensures Node(j, []) == j
  {
  }

  lemma TypesLeave(j: Json, decompiled: Decompiled)
    ensures SameFrom(Apply(j, StripEdits(TypesSites(j, decompiled))), j, AFTER_TYPES)
  {
    ProviderTypes(j, decompiled);
    var sites := TypesSites(j, decompiled);
    hide TypesSites;
    forall s <- sites ensures s.path != [] && s.path[0] == Key(TYPES) {
      assert [Key(TYPES)] <= s.path;
    }
    PartLeaves(j, j, sites, AFTER_TYPES, AFTER_TYPES);
  }

  lemma VariablesStep(j: Json, k: Json, decompiled: Decompiled)
    requires SameFrom(k, j, AFTER_TYPES)
    ensures var sites := EntitySites(j, [], [], decompiled, "variable_list", "variable_list");
      && EntitySites(Node(k, []), [], [], decompiled, "variable_list", "variable_list") == sites
      && SameFrom(Apply(k, StripEdits(sites)), j, AFTER_VARIABLES)
  {
    RootOf(k);
    EntitySame(j, k, [], [], decompiled, "variable_list", "variable_list");
    var sites := EntitySites(j, [], [], decompiled, "variable_list", "variable_list");
    hide EntitySites;
    PartLeaves(j, k, sites, AFTER_TYPES, AFTER_VARIABLES);
  }

  lemma SchemaStep(j: Json, k: Json, decompiled: Decompiled)
    requires SameFrom(k, j, AFTER_VARIABLES)
    ensures var sites := EntitySites(j, [], [], decompiled, "auth_schema_list", "auth_schema_list");
      && EntitySites(Node(k, []), [], [], decompiled, "auth_schema_list", "auth_schema_list") == sites
      && SameFrom(Apply(k, StripEdits(sites)), j, AFTER_SCHEMA)
  {
    RootOf(k);
    EntitySame(j, k, [], [], decompiled, "auth_schema_list", "auth_schema_list");
    var sites := EntitySites(j, [], [], decompiled, "auth_schema_list", "auth_schema_list");
    hide EntitySites;
    PartLeaves(j, k, sites, AFTER_VARIABLES, AFTER_SCHEMA);
  }

  /** What the last part of a provider's strip reads. */
  lemma LastMember(j: Json, k: Json, decompiled: Decompiled)
    requires SameFrom(k, j, AFTER_ACCOUNT)
    ensures ActionSites(Node(k, []), [], decompiled, "action_list") == ActionSites(j, [], decompiled, "action_list")
  {
    RootOf(k);
    ActionSame(j, k, [], decompiled, "action_list");
  }

  lemma {:induction false} SectionSame(j: Json, k: Json, p: Path, decompiled: Decompiled, context: string)
    requires Lookup(k, p) == Lookup(j, p)
    ensures SectionSites(k, p, decompiled, context) == SectionSites(j, p, decompiled, context)
  {
  }

  lemma AccountSame(j: Json, k: Json, decompiled: Decompiled)
    requires Get(k, "test_account") == Get(j, "test_account")
    ensures AccountSites(k, decompiled) == AccountSites(j, decompiled)
  {
    MemberOf(j, "test_account", "data");
    MemberOf(k, "test_account", "data");
    SectionSame(j, k, ACCOUNT_DATA, decompiled, "test_account_variable_list");
  }

  lemma EndpointSame(j: Json, k: Json, decompiled: Decompiled)
    requires Get(k, "endpoint_schema") == Get(j, "endpoint_schema")
    ensures SectionSites(k, ENDPOINT_SCHEMA, decompiled, "endpoint_schema_list")
            == SectionSites(j, ENDPOINT_SCHEMA, decompiled, "endpoint_schema_list")
  {
    OneStep(j, Key("endpoint_schema"));
    OneStep(k, Key("endpoint_schema"));
    SectionSame(j, k, ENDPOINT_SCHEMA, decompiled, "endpoint_schema_list");
  }

  lemma EndpointStep(j: Json, k: Json, decompiled: Decompiled)
    requires SameFrom(k, j, AFTER_SCHEMA)
    ensures var sites := SectionSites(j, ENDPOINT_SCHEMA, decompiled, "endpoint_schema_list");
      SectionSites(k, ENDPOINT_SCHEMA, decompiled, "endpoint_schema_list") == sites
          && SameFrom(Apply(k, StripEdits(sites)), j, AFTER_ENDPOINT)
  {
    EndpointSame(j, k, decompiled);
    var sites := SectionSites(j, ENDPOINT_SCHEMA, decompiled, "endpoint_schema_list");
    hide SectionSites;
    forall s | s in sites ensures s.path != [] && s.path[0] == Key("endpoint_schema") {
      assert ENDPOINT_SCHEMA <= s.path;
    }
    PartLeaves(j, k, sites, AFTER_SCHEMA, AFTER_ENDPOINT);
  }

  lemma AccountStep(j: Json, k: Json, decompiled: Decompiled)
    requires SameFrom(k, j, AFTER_ENDPOINT)
    ensures var sites := AccountSites(j, decompiled);
      AccountSites(k, decompiled) == sites && SameFrom(Apply(k, StripEdits(sites)), j, AFTER_ACCOUNT)
  {
    AccountSame(j, k, decompiled);
    var sites := AccountSites(j, decompiled);
    hide AccountSites;
    forall s | s in sites ensures s.path != [] && s.path[0] == Key("test_account") {
      assert ACCOUNT_DATA <= s.path && ACCOUNT_DATA[0] == Key("test_account");
    }
    PartLeaves(j, k, sites, AFTER_ENDPOINT, AFTER_ACCOUNT);
  }
}
