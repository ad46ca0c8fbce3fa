/** The sites of a payload are true of it, do not disturb each other, and are filed out of each other's way. */
module SecretPlaces {
  import opened Options
  import opened JsonTree
  import opened SecretSites
  import opened SecretWalk

  /** The sites of a part of the walk, provided that the strip passes it. */
  ghost predicate Block(j: Json, sites: seq<Site>) {
    Completes(sites) ==> (forall s <- sites :: Truthful(j, s)) && AllApart(sites)
  }

  lemma Join(j: Json, a: seq<Site>, b: seq<Site>)
    requires Block(j, a) && Block(j, b)
    requires Completes(a + b) ==> forall s <- a, t <- b :: Apart(s, t)
    ensures Block(j, a + b)
  {
    CompletesBoth(a, b);
    forall i, k | Completes(a + b) && 0 <= i < |a + b| && 0 <= k < |a + b| && i != k
      ensures Apart((a + b)[i], (a + b)[k])
    {
      if i < |a| && k >= |a| {
        assert a[i] in a && b[k-|a|] in b;
      } else if i >= |a| && k < |a| {
        assert a[k] in a && b[i-|a|] in b;
        ApartSymmetric(a[k], b[i-|a|]);
      }
    }
  }

  lemma ApartSymmetric(s: Site, t: Site)
    ensures Apart(s, t) == Apart(t, s)
  {
    DivergeSymmetric(s.path, t.path);
  }

  lemma {:induction false} HeadsDiverge(p: Path, q: Path, r: Path)
    requires p < q && p < r && q[|p|] != r[|p|]
    ensures Diverge(q, r)
  {
    DivergeAt(p, q[|p|], r[|p|], q[|p|+1..], r[|p|+1..]);
    assert q == p + [q[|p|]] + q[|p|+1..] && r == p + [r[|p|]] + r[|p|+1..];
  }

  /** Blocks that leave a node by different steps join into one block. */
  lemma JoinHeads(j: Json, a: seq<Site>, b: seq<Site>, p: Path)
    requires Block(j, a) && Block(j, b)
    requires forall s <- a, t <- b :: p < s.path && p < t.path && s.path[|p|] != t.path[|p|]
    ensures Block(j, a + b)
  {
    forall s <- a, t <- b ensures Apart(s, t) {
      HeadsDiverge(p, s.path, t.path);
    }
    Join(j, a, b);
  }

  lemma FailedBlock(j: Json, p: Path, f: Path)
    ensures Block(j, [MissingAt(p, f)])
  {
    assert MissingAt(p, f) in [MissingAt(p, f)];
  }

  // ----- variables

  lemma OptionBlock(j: Json, p: Path, f: Path)
    ensures Block(j, OptionSites(Node(j, p), p, f))
  {
    var v := Node(j, p);
    var rest := OPTION_AUTH + BASIC_PASSWORD;
    FailedBlock(j, p + rest, f + rest);
    LookupSplit(j, p, rest);
    LookupSplit(v, OPTION_AUTH, BASIC_PASSWORD);
    if Lookup(j, p).None? {
      assert Node(v, OPTION_AUTH) == Null;
    }
    assert p + (OPTION_AUTH + BASIC_PASSWORD) == p + OPTION_AUTH + BASIC_PASSWORD;
  }

  lemma VariableBlock(j: Json, p: Path, f: Path, known: Known)
    ensures Block(j, VariableSites(Node(j, p), p, f, known))
  {
    var own, option := OwnSites(Node(j, p), p, f, known), OptionSites(Node(j, p), p, f);
    OptionBlock(j, p, f);
    FailedBlock(j, p, f);
    assert Block(j, own);
    CompletesBoth(own, option);
    forall s <- own, t <- option | Completes(own + option) ensures Apart(s, t) {
      assert !Fails(s) && t.path == p + (OPTION_AUTH + BASIC_PASSWORD);
      assert t.path[|p|] == OPTION_AUTH[0];
    }
    Join(j, own, option);
  }

  /** The elements `items` stand in a list of the tree at `p`. */
  ghost predicate ListAt(j: Json, p: Path, items: seq<Json>) {
    forall i | 0 <= i < |items| :: Lookup(j, p + [Idx(i)]) == Some(items[i])
  }

  lemma ElementsAt(j: Json, p: Path, k: string)
    ensures ListAt(j, p + [Key(k)], Elements(Node(j, p), k))
  {
    var items := Elements(Node(j, p), k);
    forall i | 0 <= i < |items| ensures Lookup(j, p + [Key(k)] + [Idx(i)]) == Some(items[i]) {
      LookupSplit(j, p + [Key(k)], [Idx(i)]);
      LookupSplit(j, p, [Key(k)]);
      assert Lookup(Node(j, p), [Key(k)]) == Some(Arr(items));
      assert Lookup(Arr(items), [Idx(i)]) == Some(items[i]);
    }
  }

  lemma {:induction false} ListBlock(j: Json, items: seq<Json>, p: Path, f: Path, known: Known)
    requires ListAt(j, p, items)
    ensures Block(j, ListSites(items, p, f, known))
  {
    if items != [] {
      var n := |items| - 1;
      ListBlock(j, items[..n], p, f, known);
      assert Node(j, p + [Idx(n)]) == items[n];
      VariableBlock(j, p + [Idx(n)], f + [Idx(n)], known);
      var last := VariableSites(items[n], p + [Idx(n)], f + [Idx(n)], known);
      BasedUp(last, p, f, Idx(n));
      JoinHeads(j, ListSites(items[..n], p, f, known), last, p);
    }
  }

  lemma EntityBlock(j: Json, p: Path, f: Path, decompiled: Decompiled, field: string, context: string)
    ensures Block(j, EntitySites(Node(j, p), p, f, decompiled, field, context))
  {
    ElementsAt(j, p, field);
    FailedBlock(j, p + [Key(field)], f + [Key(field)]);
    ListBlock(j, Elements(Node(j, p), field), p + [Key(field)], f + [Key(field)],
              SecretsOf(decompiled, EntityContext(Node(j, p), field, context)));
  }

  // ----- actions

  lemma ChildBelow(j: Json, p: Path, k: string)
    ensures OrNull(Get(Node(j, p), k)) == Node(j, p + [Key(k)])
  {
    LookupSplit(j, p, [Key(k)]);
    assert Lookup(Node(j, p), [Key(k)]) == Get(Node(j, p), k);
  }

  lemma TaskAuthBlock(j: Json, p: Path, decompiled: Decompiled, context: string)
    ensures Block(j, TaskAuthSites(Node(j, p), p, decompiled, context))
  {
    var task := Node(j, p);
    FailedBlock(j, p + (TASK_AUTH + BASIC_PASSWORD), p + (TASK_AUTH + BASIC_PASSWORD));
    LookupSplit(j, p, TASK_AUTH + BASIC_PASSWORD);
    LookupSplit(task, TASK_AUTH, BASIC_PASSWORD);
    if Lookup(j, p).None? {
      assert Node(task, TASK_AUTH) == Null;
    }
    assert p + (TASK_AUTH + BASIC_PASSWORD) == p + TASK_AUTH + BASIC_PASSWORD;
  }

  lemma HeaderBlock(j: Json, p: Path, f: Path, decompiled: Decompiled, context: string)
    ensures Block(j, HeaderSites(Node(j, p), p, f, decompiled, context))
  {
    EntityBlock(j, p, f, decompiled, "headers", context);
  }

  lemma ActionTaskBlock(j: Json, p: Path, decompiled: Decompiled, context: string)
    ensures Block(j, ActionTaskSites(Node(j, p), p, decompiled, context))
  {
    hide Truthful, Apart, Lookup, EntitySites, TaskAuthSites, Completes;
    FailedBlock(j, p, p);
    var task := Node(j, p);
    var here := context + "." + Text(task, "name");
    TaskAuthBlock(j, p, decompiled, here);
    HeaderBlock(j, p + [ATTRS], p + [ATTRS], decompiled, here + ".headers");
    ChildBelow(j, p, "attrs");
    var auth := TaskAuthSites(task, p, decompiled, here);
    var headers := HeaderSites(OrNull(Get(task, "attrs")), p + [ATTRS], p + [ATTRS], decompiled, here + ".headers");
    forall s <- auth, t <- headers
      ensures p + [ATTRS] < s.path && p + [ATTRS] < t.path && s.path[|p|+1] != t.path[|p|+1]
    {
      assert s.path == p + [ATTRS] + ([Key("authentication")] + BASIC_PASSWORD);
      assert s.path[|p|+1] == Key("authentication");
    }
    JoinHeads(j, auth, headers, p + [ATTRS]);
  }

  lemma {:induction false} ActionTaskListBlock(j: Json, tasks: seq<Json>, p: Path, decompiled: Decompiled,
                                               context: string)
    requires ListAt(j, p, tasks)
    ensures Block(j, ActionTaskListSites(tasks, p, decompiled, context))
  {
    if tasks != [] {
      var n := |tasks| - 1;
      ActionTaskListBlock(j, tasks[..n], p, decompiled, context);
      assert Node(j, p + [Idx(n)]) == tasks[n];
      ActionTaskBlock(j, p + [Idx(n)], decompiled, context);
      var last := ActionTaskSites(tasks[n], p + [Idx(n)], decompiled, context);
      BasedUp(last, p, p, Idx(n));
      JoinHeads(j, ActionTaskListSites(tasks[..n], p, decompiled, context), last, p);
    }
  }

  lemma ActionRunbookBlock(j: Json, p: Path, decompiled: Decompiled, context: string)
    ensures Block(j, ActionRunbookSites(Node(j, p), p, decompiled, context))
  {
    var runbook := Node(j, p);
    EntityBlock(j, p, p, decompiled, "variable_list", context);
    ElementsAt(j, p, TASKS.key);
    var here := context + "." + Text(runbook, "name") + ".task_definition_list";
    ActionTaskListBlock(j, Elements(runbook, TASKS.key), p + [TASKS], decompiled, here);
    FailedBlock(j, p + [TASKS], p + [TASKS]);
    JoinHeads(j, EntitySites(runbook, p, p, decompiled, "variable_list", context),
              ActionTasksSites(runbook, p, decompiled, context), p);
  }

  lemma {:induction false} ActionListBlock(j: Json, actions: seq<Json>, p: Path, decompiled: Decompiled,
                                           context: string)
    requires ListAt(j, p, actions)
    ensures Block(j, ActionListSites(actions, p, decompiled, context))
  {
    if actions != [] {
      var n := |actions| - 1;
      ActionListBlock(j, actions[..n], p, decompiled, context);
      var here := context + "." + Text(actions[n], "name") + ".runbook";
      assert Node(j, p + [Idx(n)]) == actions[n];
      ChildBelow(j, p + [Idx(n)], "runbook");
      ActionRunbookBlock(j, p + [Idx(n)] + [Key("runbook")], decompiled, here);
      FailedBlock(j, p + [Idx(n)], p + [Idx(n)]);
      var last := OneActionSites(actions[n], p + [Idx(n)], decompiled, context);
      BasedUp(last, p, p, Idx(n));
      JoinHeads(j, ActionListSites(actions[..n], p, decompiled, context), last, p);
    }
  }

  lemma ActionBlock(j: Json, p: Path, decompiled: Decompiled, context: string)
    ensures Block(j, ActionSites(Node(j, p), p, decompiled, context))
  {
    ElementsAt(j, p, "action_list");
    var actions := Elements(Node(j, p), "action_list");
    var q := p + [Key("action_list")];
    ActionListBlock(j, actions[..Walked(actions)], q, decompiled, context);
    FailedBlock(j, q, q);
    var walked, stop := ActionListSites(actions[..Walked(actions)], q, decompiled, context), StopSites(actions, q);
    CompletesBoth(walked, stop);
    if Completes(walked + stop) {
      assert stop == [] by {
        assert forall s | s in stop :: Fails(s);
      }
      assert walked + stop == walked;
    }
  }

  // ----- authentication and runbook tasks

  lemma AuthBlock(j: Json, p: Path, f: Path, decompiled: Decompiled, context: string)
    ensures Block(j, AuthSites(Node(j, p), p, f, decompiled, context))
  {
    var obj := Node(j, p);
    FailedBlock(j, p + [Key("authentication"), Key("password")], f + [Key("authentication"), Key("password")]);
    LookupSplit(j, p, [Key("authentication"), Key("password")]);
    LookupSplit(obj, [Key("authentication")], [Key("password")]);
    assert [Key("authentication")] + [Key("password")] == [Key("authentication"), Key("password")];
    var auth := Node(obj, [Key("authentication")]);
    assert Lookup(auth, [Key("password")]) == Get(auth, "password");
  }

  lemma HttpTaskBlock(j: Json, p: Path, f: Path, decompiled: Decompiled, context: string)
    ensures Block(j, HttpTaskSites(Node(j, p), p, f, decompiled, context))
  {
    AuthBlock(j, p, f, decompiled, context);
    HeaderBlock(j, p, f, decompiled, context + ".headers");
    var auth := AuthSites(Node(j, p), p, f, decompiled, context);
    var headers := HeaderSites(Node(j, p), p, f, decompiled, context + ".headers");
    forall s <- auth, t <- headers ensures p < s.path && p < t.path && s.path[|p|] != t.path[|p|] {
      assert s.path[|p|] == Key("authentication");
    }
    JoinHeads(j, auth, headers, p);
  }

  lemma RunbookTaskBlock(j: Json, p: Path, i: nat, decompiled: Decompiled, context: string)
    ensures Block(j, RunbookTaskSites(Node(j, p + [TASKS] + [Idx(i)]), p, i, decompiled, context))
  {
    var q := p + [TASKS] + [Idx(i)];
    var task := Node(j, q);
    var at := p + [TASKS, Idx(i), ATTRS];
    assert q + [ATTRS] == at;
    ChildBelow(j, q, "attrs");
    FailedBlock(j, at, at);
    EntityBlock(j, at, at, decompiled, "inarg_list", "");
    HttpTaskBlock(j, at, TaskFile(Node(j, at), p, i), decompiled, context + "." + Text(task, "name"));
  }

  lemma TaskHead(p: Path, n: nat, q: Path)
    requires p + [TASKS, Idx(n), ATTRS] <= q
    ensures p + [TASKS] < q && q[|p + [TASKS]|] == Idx(n)
  {
    assert q[..|p|+1] == (p + [TASKS, Idx(n), ATTRS])[..|p|+1] == p + [TASKS];
  }

  lemma {:induction false} RunbookListBlock(j: Json, tasks: seq<Json>, p: Path, decompiled: Decompiled, context: string)
    requires ListAt(j, p + [TASKS], tasks)
    ensures Block(j, RunbookListSites(tasks, p, decompiled, context))
  {
    if tasks != [] {
      var n := |tasks| - 1;
      RunbookListBlock(j, tasks[..n], p, decompiled, context);
      assert Node(j, p + [TASKS] + [Idx(n)]) == tasks[n];
      RunbookTaskBlock(j, p, n, decompiled, context);
      var last := RunbookTaskSites(tasks[n], p, n, decompiled, context);
      var before := RunbookListSites(tasks[..n], p, decompiled, context);
      forall t <- last ensures p + [TASKS] < t.path && t.path[|p + [TASKS]|] == Idx(n) {
        TaskHead(p, n, t.path);
      }
      JoinHeads(j, before, last, p + [TASKS]);
    }
  }

  lemma RunbookBlock(j: Json, p: Path, decompiled: Decompiled, context: string)
    ensures Block(j, RunbookSites(Node(j, p), p, decompiled, context))
  {
    ElementsAt(j, p, TASKS.key);
    FailedBlock(j, p + [TASKS], p + [TASKS]);
    RunbookListBlock(j, Elements(Node(j, p), TASKS.key), p, decompiled, context);
  }

  // ----- one whole object

  /** Places an object's own sites can lie in, and the two regions secrets can be misfiled to. */
  predicate InObject(s: Site, p: Path) {
    && p < s.path
    && (s.path[|p|] in {Key("variable_list"), Key("action_list"), TASKS}
        || p + [Key("authentication"), Key("password")] == s.path)
  }

  predicate FiledInObject(s: Site, p: Path) {
    s.filed == s.path || p + [Key("runbook")] <= s.filed || p + [Key("authentication"), Key("basic_auth")] <= s.filed
  }

  lemma ObjectClear(s: Site, t: Site, p: Path)
    requires FiledInObject(s, p) && InObject(t, p)
    ensures Clear(s, t)
  {
    if s.filed != s.path {
      if p + [Key("runbook")] <= s.filed {
        assert s.filed[|p|] == Key("runbook") && s.filed[..|p|] == p;
        HeadsDiverge(p, s.filed, t.path);
      } else {
        var a := Key("authentication");
        assert s.filed[|p|] == a && s.filed[|p|+1] == Key("basic_auth") && s.filed[..|p|+1] == p + [a];
        if t.path == p + [a, Key("password")] {
          assert t.path == p + [a] + [Key("password")];
          HeadsDiverge(p + [a], s.filed, t.path);
        } else {
          assert s.filed[..|p|] == p;
          HeadsDiverge(p, s.filed, t.path);
        }
      }
    }
  }

  ghost predicate Placed(sites: seq<Site>, p: Path) {
    forall s <- sites :: InObject(s, p) && FiledInObject(s, p) && p <= s.filed
  }

  lemma HeadedPlaced(sites: seq<Site>, p: Path, x: Step)
    requires AllBased(sites, p, p) && Headed(sites, p, x)
    requires x in {Key("variable_list"), Key("action_list")}
    ensures Placed(sites, p)
  {
    HeadedHome(sites, p, x);
  }

  lemma AuthPlaced(obj: Json, p: Path, decompiled: Decompiled, head: string)
    ensures Placed(AuthSites(obj, p, p, decompiled, head), p)
    ensures Headed(AuthSites(obj, p, p, decompiled, head), p, Key("authentication"))
  {
    forall s <- AuthSites(obj, p, p, decompiled, head)
      ensures InObject(s, p) && FiledInObject(s, p) && p <= s.filed && p < s.path
              && s.path[|p|] == Key("authentication")
    {
      if s.kind != Missing {
        assert s.filed == p + [Key("authentication"), Key("basic_auth")] + [Key("password")];
      }
    }
  }

  lemma AllSitesPlaced(obj: Json, p: Path, decompiled: Decompiled, head: string)
    ensures Placed(AllSites(obj, p, decompiled, head), p)
  {
    hide EntitySites, ActionSites, RunbookSites, AuthSites, IsText;
    var name := Text(obj, "name");
    HeadedPlaced(EntitySites(obj, p, p, decompiled, "variable_list", head), p, Key("variable_list"));
    HeadedPlaced(ActionSites(obj, p, decompiled, head + "." + name + ".action_list"), p, Key("action_list"));
    HeadedPlaced([MissingAt(p + [Key("action_list")], p + [Key("action_list")])], p, Key("action_list"));
    assert Placed(RunbookSites(obj, p, decompiled, head + "." + name + ".task_definition_list"), p);
    AuthPlaced(obj, p, decompiled, head);
  }

  lemma AllSitesBlock(j: Json, p: Path, decompiled: Decompiled, head: string)
    ensures Block(j, AllSites(Node(j, p), p, decompiled, head))
  {
    hide EntitySites, ActionSites, RunbookSites, AuthSites, Block;
    var obj := Node(j, p);
    var name := Text(obj, "name");
    var entity := EntitySites(obj, p, p, decompiled, "variable_list", head);
    if !IsText(obj, "name") {
      Unnamed(j, entity, p + [Key("action_list")]);
    } else {
      EntityBlock(j, p, p, decompiled, "variable_list", head);
      ActionBlock(j, p, decompiled, head + "." + name + ".action_list");
      RunbookBlock(j, p, decompiled, head + "." + name + ".task_definition_list");
      AuthBlock(j, p, p, decompiled, head);
      AuthPlaced(obj, p, decompiled, head);
      FourBlocks(j, entity, ActionSites(obj, p, decompiled, head + "." + name + ".action_list"),
                 RunbookSites(obj, p, decompiled, head + "." + name + ".task_definition_list"),
                 AuthSites(obj, p, p, decompiled, head), p);
    }
  }

  lemma Unnamed(j: Json, sites: seq<Site>, p: Path)
    ensures Block(j, sites + [MissingAt(p, p)]) && Files(sites + [MissingAt(p, p)])
            && !Completes(sites + [MissingAt(p, p)])
  {
    CompletesBoth(sites, [MissingAt(p, p)]);
    assert MissingAt(p, p) in [MissingAt(p, p)];
  }

  lemma FourBlocks(j: Json, a: seq<Site>, b: seq<Site>, c: seq<Site>, d: seq<Site>, p: Path)
    requires Block(j, a) && Block(j, b) && Block(j, c) && Block(j, d)
    requires Headed(a, p, Key("variable_list")) && Headed(b, p, Key("action_list"))
    requires Headed(c, p, TASKS) && Headed(d, p, Key("authentication"))
    ensures Block(j, a + b + c + d)
  {
    JoinHeads(j, a, b, p);
    JoinHeads(j, a + b, c, p);
    JoinHeads(j, a + b + c, d, p);
  }

  // ----- file paths

  /** No two secrets of a part of the walk are filed at one place, provided that the strip passes it. */
  ghost predicate Files(sites: seq<Site>) {
    Completes(sites) ==> AllFiledApart(sites)
  }

  /** Two places below one node stay apart when both are moved below another. */
  lemma ShiftApart(p: Path, f: Path, x: Path, y: Path)
    requires ApartPaths(p + x, p + y)
    ensures ApartPaths(f + x, f + y)
  {
    DivergeUnder(p, x, y);
    DivergeUnder(f, x, y);
    if Within(p + x, p + y) {
      ShiftWithin(p, f, x, y);
    } else if Within(p + y, p + x) {
      ShiftWithin(p, f, y, x);
    }
  }

  lemma ShiftWithin(p: Path, f: Path, x: Path, y: Path)
    requires Within(p + x, p + y)
    ensures Within(f + x, f + y)
  {
    assert x == (p + x)[|p|..] && y == (p + y)[|p|..];
    assert (p + y)[|p + x|] == y[|x|] == (f + y)[|f + x|];
    assert y[..|x|] == x && (f + y)[..|f + x|] == f + x;
  }

  lemma BasedFiles(j: Json, sites: seq<Site>, p: Path, f: Path)
    requires Block(j, sites) && AllBased(sites, p, f)
    ensures Files(sites)
  {
    if Completes(sites) {
      forall i, k | 0 <= i < |sites| && 0 <= k < |sites| && i != k ensures ApartPaths(sites[i].filed, sites[k].filed) {
        var s, t := sites[i], sites[k];
        assert s in sites && t in sites;
        assert s.path == p + s.path[|p|..] && t.path == p + t.path[|p|..];
        ShiftApart(p, f, s.path[|p|..], t.path[|p|..]);
      }
    }
  }

  lemma JoinFiles(a: seq<Site>, b: seq<Site>)
    requires Files(a) && Files(b)
    requires Completes(a + b) ==> forall s, t | s in a && t in b :: Diverge(s.filed, t.filed)
    ensures Files(a + b)
  {
    CompletesBoth(a, b);
    if Completes(a + b) {
      forall i, k | 0 <= i < |a + b| && 0 <= k < |a + b| && i != k
        ensures ApartPaths((a + b)[i].filed, (a + b)[k].filed)
      {
        if i < |a| && k >= |a| {
          assert a[i] in a && b[k-|a|] in b;
        } else if i >= |a| && k < |a| {
          assert a[k] in a && b[i-|a|] in b;
          DivergeSymmetric(a[k].filed, b[i-|a|].filed);
        }
      }
    }
  }

  /** Every secret is filed below `f` with a step among `steps`. */
  ghost predicate FiledUnder(sites: seq<Site>, f: Path, steps: set<Step>) {
    forall s | s in sites :: f < s.filed && s.filed[|f|] in steps
  }

  lemma JoinFiledHeads(a: seq<Site>, b: seq<Site>, f: Path, x: set<Step>, y: set<Step>)
    requires Files(a) && Files(b) && FiledUnder(a, f, x) && FiledUnder(b, f, y) && x !! y
    ensures Files(a + b) && FiledUnder(a + b, f, x + y)
  {
    forall s, t | s in a && t in b ensures Diverge(s.filed, t.filed) {
      HeadsDiverge(f, s.filed, t.filed);
    }
    JoinFiles(a, b);
  }

  lemma HeadedFiles(sites: seq<Site>, p: Path, f: Path, x: Step)
    requires AllBased(sites, p, f) && Headed(sites, p, x)
    ensures FiledUnder(sites, f, {x})
  {
    forall s | s in sites ensures f < s.filed && s.filed[|f|] == x {
      assert s.path[|p|..][0] == x;
    }
  }

  lemma AuthFiles(obj: Json, p: Path, f: Path, decompiled: Decompiled, context: string)
    ensures var sites := AuthSites(obj, p, f, decompiled, context);
      Files(sites) && FiledUnder(sites, f, {Key("authentication")})
  {
    var sites := AuthSites(obj, p, f, decompiled, context);
    assert |sites| <= 1;
    forall s | s in sites ensures f < s.filed && s.filed[|f|] == Key("authentication") {
      assert f + [Key("authentication")] + BASIC_PASSWORD == f + ([Key("authentication")] + BASIC_PASSWORD);
    }
  }

  lemma HttpTaskFiles(j: Json, p: Path, f: Path, decompiled: Decompiled, context: string)
    ensures Files(HttpTaskSites(Node(j, p), p, f, decompiled, context))
  {
    hide AuthSites, HeaderSites, Files;
    var headers := HeaderSites(Node(j, p), p, f, decompiled, context + ".headers");
    AuthFiles(Node(j, p), p, f, decompiled, context);
    HeaderBlock(j, p, f, decompiled, context + ".headers");
    BasedFiles(j, headers, p, f);
    HeadedFiles(headers, p, f, Key("headers"));
    JoinFiledHeads(AuthSites(Node(j, p), p, f, decompiled, context), headers, f, {Key("authentication")},
                   {Key("headers")});
  }

  lemma OneFiles(s: Site)
    ensures Files([s])
  {
  }

  lemma RunbookTaskFiles(j: Json, p: Path, i: nat, decompiled: Decompiled, context: string)
    ensures Files(RunbookTaskSites(Node(j, p + [TASKS] + [Idx(i)]), p, i, decompiled, context))
  {
    var q := p + [TASKS] + [Idx(i)];
    var task := Node(j, q);
    var at := p + [TASKS, Idx(i), ATTRS];
    hide EntitySites, HttpTaskSites, Files;
    assert q + [ATTRS] == at;
    ChildBelow(j, q, "attrs");
    OneFiles(MissingAt(at, at));
    EntityBlock(j, at, at, decompiled, "inarg_list", "");
    BasedFiles(j, EntitySites(Node(j, at), at, at, decompiled, "inarg_list", ""), at, at);
    HttpTaskFiles(j, at, TaskFile(Node(j, at), p, i), decompiled, context + "." + Text(task, "name"));
    NoFiles();
  }

  lemma NoFiles()
    ensures Files([])
  {
  }

  /** Tasks of different rows file their secrets apart, with or without the extra step. */
  lemma RowsFiledApart(s: Site, t: Site, p: Path)
    requires FiledAtRow(s, p) && FiledAtRow(t, p) && p + [TASKS] < s.path && p + [TASKS] < t.path
    requires s.path[|p|+1] != t.path[|p|+1]
    ensures Diverge(s.filed, t.filed)
  {
    var r := p + [Key("runbook"), TASKS];
    FiledRow(s, p);
    FiledRow(t, p);
    if s.filed == s.path && t.filed == t.path {
      HeadsDiverge(p + [TASKS], s.filed, t.filed);
    } else if s.filed != s.path && t.filed != t.path {
      HeadsDiverge(r, s.filed, t.filed);
    } else {
      HeadsDiverge(p, s.filed, t.filed);
    }
  }

  lemma FiledRow(s: Site, p: Path)
    requires FiledAtRow(s, p) && p + [TASKS] < s.path
    ensures p < s.filed && s.filed[|p|] == if s.filed == s.path then TASKS else Key("runbook")
    ensures s.filed != s.path ==> p + [Key("runbook"), TASKS] < s.filed && s.filed[|p|+2] == s.path[|p|+1]
  {
    assert s.path[|p|] == TASKS && s.path[..|p|] == p;
    if s.filed != s.path {
      var whole := p + [Key("runbook"), TASKS, s.path[|p|+1], ATTRS];
      assert s.filed[..|p|+4] == whole && s.filed[..|p|+2] == whole[..|p|+2] == p + [Key("runbook"), TASKS];
      assert s.filed[|p|+2] == whole[|p|+2] && s.filed[|p|] == whole[|p|];
    }
  }

  lemma {:induction false} RunbookListFiles(j: Json, tasks: seq<Json>, p: Path, decompiled: Decompiled, context: string)
    requires ListAt(j, p + [TASKS], tasks)
    ensures Files(RunbookListSites(tasks, p, decompiled, context))
  {
    if tasks != [] {
      var n := |tasks| - 1;
      RunbookListFiles(j, tasks[..n], p, decompiled, context);
      assert Node(j, p + [TASKS] + [Idx(n)]) == tasks[n];
      RunbookTaskFiles(j, p, n, decompiled, context);
      var last := RunbookTaskSites(tasks[n], p, n, decompiled, context);
      var before := RunbookListSites(tasks[..n], p, decompiled, context);
      TaskRows(last, p, n);
      hide RunbookTaskSites, Files;
      forall s, t | s in before && t in last ensures Diverge(s.filed, t.filed) {
        TaskHead(p, n, t.path);
        assert |p + [TASKS]| == |p| + 1;
        RowsFiledApart(s, t, p);
      }
      JoinFiles(before, last);
    }
  }

  lemma RunbookFiles(j: Json, p: Path, decompiled: Decompiled, context: string)
    ensures var sites := RunbookSites(Node(j, p), p, decompiled, context);
      Files(sites) && FiledUnder(sites, p, {TASKS, Key("runbook")})
  {
    var sites := RunbookSites(Node(j, p), p, decompiled, context);
    ElementsAt(j, p, TASKS.key);
    OneFiles(MissingAt(p + [TASKS], p + [TASKS]));
    RunbookListFiles(j, Elements(Node(j, p), TASKS.key), p, decompiled, context);
    hide RunbookSites;
    forall s | s in sites ensures p < s.filed && s.filed[|p|] in {TASKS, Key("runbook")} {
      if s.filed != s.path {
        assert s.filed[|p|] == (p + [Key("runbook")])[|p|];
      }
    }
  }

  lemma AllSitesFiles(j: Json, p: Path, decompiled: Decompiled, head: string)
    ensures Files(AllSites(Node(j, p), p, decompiled, head))
  {
    hide EntitySites, ActionSites, RunbookSites, AuthSites, Block, Files;
    var obj := Node(j, p);
    var name := Text(obj, "name");
    var entity := EntitySites(obj, p, p, decompiled, "variable_list", head);
    if !IsText(obj, "name") {
      Unnamed(j, entity, p + [Key("action_list")]);
    } else {
      var actions := ActionSites(obj, p, decompiled, head + "." + name + ".action_list");
      var runbook := RunbookSites(obj, p, decompiled, head + "." + name + ".task_definition_list");
      EntityBlock(j, p, p, decompiled, "variable_list", head);
      BasedFiles(j, entity, p, p);
      HeadedFiles(entity, p, p, Key("variable_list"));
      ActionBlock(j, p, decompiled, head + "." + name + ".action_list");
      BasedFiles(j, actions, p, p);
      HeadedFiles(actions, p, p, Key("action_list"));
      RunbookFiles(j, p, decompiled, head + "." + name + ".task_definition_list");
      AuthFiles(obj, p, p, decompiled, head);
      JoinFiledHeads(entity, actions, p, {Key("variable_list")}, {Key("action_list")});
      JoinFiledHeads(entity + actions, runbook, p, {Key("variable_list")} + {Key("action_list")},
                     {TASKS, Key("runbook")});
      JoinFiledHeads(entity + actions + runbook, AuthSites(obj, p, p, decompiled, head), p,
                     {Key("variable_list")} + {Key("action_list")} + {TASKS, Key("runbook")}, {Key("authentication")});
    }
  }

  // ----- one whole object

  /** The sites fit together, provided that the strip passes all of them. */
  ghost predicate Fitted(j: Json, sites: seq<Site>) {
    Completes(sites) ==> WellPlaced(j, sites)
  }

  /** All sites of one object fit together. */
  lemma AllSitesWellPlaced(j: Json, p: Path, decompiled: Decompiled, head: string)
    ensures Fitted(j, AllSites(Node(j, p), p, decompiled, head))
    ensures Home(AllSites(Node(j, p), p, decompiled, head), p)
  {
    AllSitesBlock(j, p, decompiled, head);
    AllSitesFiles(j, p, decompiled, head);
    AllSitesPlaced(Node(j, p), p, decompiled, head);
    hide AllSites;
    var all := AllSites(Node(j, p), p, decompiled, head);
    forall s, t | s in all && t in all ensures Clear(s, t) {
      ObjectClear(s, t, p);
    }
  }

  // ----- several objects

  ghost predicate Home(sites: seq<Site>, p: Path) {
    forall s <- sites :: p <= s.path && p <= s.filed
  }

  /** Neither the nodes nor the files of two secrets meet. */
  predicate FarApart(s: Site, t: Site) {
    Diverge(s.path, t.path) && Diverge(s.filed, t.path) && Diverge(t.filed, s.path) && Diverge(s.filed, t.filed)
  }

  lemma JoinHomes(j: Json, a: seq<Site>, b: seq<Site>)
    requires Fitted(j, a) && Fitted(j, b)
    requires forall s, t | s in a && t in b :: FarApart(s, t)
    ensures Fitted(j, a + b)
  {
    CompletesBoth(a, b);
    JoinFiles(a, b);
    Join(j, a, b);
  }

  lemma BasedFitted(j: Json, sites: seq<Site>, p: Path, x: Step)
    requires Block(j, sites) && AllBased(sites, p, p) && Headed(sites, p, x)
    ensures Fitted(j, sites) && Home(sites, p + [x])
  {
    BasedFiles(j, sites, p, p);
    HeadedHome(sites, p, x);
  }

  lemma EntityWellPlaced(j: Json, p: Path, decompiled: Decompiled, field: string, context: string)
    ensures Fitted(j, EntitySites(Node(j, p), p, p, decompiled, field, context))
    ensures Home(EntitySites(Node(j, p), p, p, decompiled, field, context), p + [Key(field)])
  {
    EntityBlock(j, p, p, decompiled, field, context);
    BasedFitted(j, EntitySites(Node(j, p), p, p, decompiled, field, context), p, Key(field));
  }

  lemma ActionWellPlaced(j: Json, p: Path, decompiled: Decompiled, context: string)
    ensures Fitted(j, ActionSites(Node(j, p), p, decompiled, context))
    ensures Home(ActionSites(Node(j, p), p, decompiled, context), p + [Key("action_list")])
  {
    ActionBlock(j, p, decompiled, context);
    BasedFitted(j, ActionSites(Node(j, p), p, decompiled, context), p, Key("action_list"));
  }

  lemma HeadedHome(sites: seq<Site>, p: Path, x: Step)
    requires AllBased(sites, p, p) && Headed(sites, p, x)
    ensures Home(sites, p + [x]) && forall s <- sites :: s.filed == s.path
  {
  }
}
