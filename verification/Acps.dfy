/** Access control policies of a project: creating, updating and deleting them through project updates. */
module Acps {
  import opened Options

  /** A user carries one uuid; a user group carries the list the name index gave. */
  datatype Uuid = Single(uuid: string) | Several(uuids: seq<string>)
  datatype Ref = Ref(name: string, uuid: Uuid)
  datatype Acp = Acp(name: string, role: string, users: seq<Ref>, groups: seq<Ref>)
  datatype Project = Project(users: seq<string>, groups: seq<string>, acps: seq<Acp>)
  datatype Operation = Add | Update | Delete
  datatype Row = Row(acp: Acp, operation: Operation)

  /** The uuids the server lists under each user and group name. */
  datatype Directory = Directory(users: map<string, seq<string>>, groups: map<string, seq<string>>)

  /** A command ends the program, or sends the project with every ACP marked. */
  datatype Outcome = Exit | Put(rows: seq<Row>)

  predicate Subset(a: seq<string>, b: seq<string>) {
    forall x <- a :: x in b
  }

  function NamesOf(refs: seq<Ref>): set<string> {
    set r | r in refs :: r.name
  }

  // ----- listing

  predicate Matches(a: Acp, role: string, name: string) {
    (role != "" ==> a.role == role) && (name != "" ==> a.name == name)
  }

  /** The ACPs found: all that match, or the first one when a name is asked for. */
  function Found(acps: seq<Acp>, role: string, name: string): seq<Acp>
  {
    if acps == [] then []
    else if !Matches(acps[0], role, name) then Found(acps[1..], role, name)
    else if name != "" then [acps[0]]
    else [acps[0]] + Found(acps[1..], role, name)
  }

  /** What is found matches and is in the project; asked for a name there is at most one, else all that match. */
  lemma {:induction false} FoundExactly(acps: seq<Acp>, role: string, name: string)
    ensures forall a | a in Found(acps, role, name) :: a in acps && Matches(a, role, name)
    ensures name == "" ==> forall a | a in acps && Matches(a, role, name) :: a in Found(acps, role, name)
    ensures name != "" ==> |Found(acps, role, name)| <= 1
    ensures Found(acps, role, name) == [] <==> forall a | a in acps :: !Matches(a, role, name)
  {
    if acps != [] {
      FoundExactly(acps[1..], role, name);
      assert acps == [acps[0]] + acps[1..];
    }
  }

  function Slice<T>(s: seq<T>, offset: nat, limit: nat): seq<T> {
    if offset >= |s| then [] else if offset + limit >= |s| then s[offset..] else s[offset..offset + limit]
  }

  /** The search from place `i` on. */
  lemma FoundFrom(acps: seq<Acp>, i: nat, role: string, name: string)
    requires i < |acps|
    ensures Found(acps[i..], role, name) ==
            if !Matches(acps[i], role, name) then Found(acps[i+1..], role, name)
            else if name != "" then [acps[i]]
            else [acps[i]] + Found(acps[i+1..], role, name)
  {
    assert acps[i..][0] == acps[i] && acps[i..][1..] == acps[i+1..];
  }

  lemma NothingFound(role: string, name: string)
    ensures Found([], role, name) == []
  {
  }

  /** `get_acps_from_project`; an empty role or name is no filter. The total counts what a slice leaves out. */
  method GetAcps(acps: seq<Acp>, role: string, name: string, limit: nat, offset: nat)
    returns (entities: seq<Acp>, total: nat)
    ensures entities == Slice(Found(acps, role, name), offset, limit) && total == |Found(acps, role, name)|
  {
    var found: seq<Acp> := [];
    var i := 0;
    var terminate := false;
    assert acps[0..] == acps;
    NothingFound(role, name);
    hide Found, Slice;
    while i < |acps| && !terminate
      invariant i <= |acps|
      invariant !terminate ==> found + Found(acps[i..], role, name) == Found(acps, role, name)
      invariant terminate ==> found == Found(acps, role, name)
    {
      FoundFrom(acps, i, role, name);
      if role != "" && role != acps[i].role {
        i := i + 1;
        continue;
      }
      if name != "" && name != acps[i].name {
        i := i + 1;
        continue;
      } else if name != "" {
        terminate := true;
      }
      found := found + [acps[i]];
      i := i + 1;
    }
    if !terminate {
      assert acps[i..] == [];
    }
    return Slice(found, offset, limit), |found|;
  }

  predicate AskedFor(a: Acp, role: string, name: string) {
    (role == "" || a.role == role) && (name == "" || a.name == name)
  }

  /** Places in ascending order, exactly those from `first` on of the ACPs asked for. */
  ghost predicate MatchingPlaces(acps: seq<Acp>, first: nat, role: string, name: string, at: seq<nat>) {
    && (forall i, k | 0 <= i < k < |at| :: at[i] < at[k])
    && (forall i | 0 <= i < |at| :: first <= at[i] < |acps|)
    && (forall n: nat | first <= n < |acps| :: n in at <==> AskedFor(acps[n], role, name))
  }

  ghost predicate FoundAt(acps: seq<Acp>, found: seq<Acp>, name: string, at: seq<nat>) {
    && |found| == (if name == "" || at == [] then |at| else 1)
    && forall i | 0 <= i < |found| :: i < |at| && at[i] < |acps| && found[i] == acps[at[i]]
  }

  /** Without a name the matches are found in the order of the project; with one, the first of them only. */
  lemma {:induction false} FoundInOrder(acps: seq<Acp>, first: nat, role: string, name: string) returns (at: seq<nat>)
    requires first <= |acps|
    ensures MatchingPlaces(acps, first, role, name, at)
    ensures FoundAt(acps, Found(acps[first..], role, name), name, at)
    decreases |acps| - first
  {
    if first == |acps| {
      at := [];
      NothingFound(role, name);
    } else {
      var later := FoundInOrder(acps, first + 1, role, name);
      at := if AskedFor(acps[first], role, name) then [first] + later else later;
      FoundFrom(acps, first, role, name);
      assert AskedFor(acps[first], role, name) <==> Matches(acps[first], role, name);
      hide *;
      MatchingFirst(acps, first, role, name, later);
      FoundAtFirst(acps, first, Found(acps[first+1..], role, name), name, later);
    }
  }

  lemma FoundAtFirst(acps: seq<Acp>, first: nat, found: seq<Acp>, name: string, later: seq<nat>)
    requires first < |acps| && FoundAt(acps, found, name, later)
    ensures FoundAt(acps, if name == "" then [acps[first]] + found else [acps[first]], name, [first] + later)
  {
  }

  lemma MatchingFirst(acps: seq<Acp>, first: nat, role: string, name: string, later: seq<nat>)
    requires first < |acps| && MatchingPlaces(acps, first + 1, role, name, later)
    ensures MatchingPlaces(acps, first, role, name,
                           if AskedFor(acps[first], role, name) then [first] + later else later)
  {
    hide AskedFor;
  }

  /** A listing holds the matches from `offset` on, `limit` of them or as many as there are. */
  lemma ListedExactly(acps: seq<Acp>, role: string, name: string, limit: nat, offset: nat) returns (at: seq<nat>)
    ensures MatchingPlaces(acps, 0, role, name, at)
    ensures var entities, total := Slice(Found(acps, role, name), offset, limit), |Found(acps, role, name)|;
      && total == (if name == "" || at == [] then |at| else 1)
      && |entities| == (if total <= offset then 0 else if total - offset <= limit then total - offset else limit)
      && (forall i | 0 <= i < |entities| :: offset + i < |at| && entities[i] == acps[at[offset + i]])
  {
    at := FoundInOrder(acps, 0, role, name);
    assert acps[0..] == acps;
    hide Found, MatchingPlaces;
  }

  // ----- members

  /** References whose name is not removed, in order. */
  function Without(refs: seq<Ref>, removed: seq<string>): seq<Ref> {
    if refs == [] then []
    else Without(refs[..|refs|-1], removed) + (if refs[|refs|-1].name in removed then [] else [refs[|refs|-1]])
  }

  predicate Known(names: seq<string>, directory: map<string, seq<string>>) {
    forall n <- names :: n in directory && directory[n] != []
  }

  predicate Indexed(names: seq<string>, directory: map<string, seq<string>>) {
    forall n <- names :: n in directory
  }

  function UserRefs(names: seq<string>, directory: map<string, seq<string>>): (refs: seq<Ref>)
    requires Known(names, directory)
  {
    seq(|names|, i requires 0 <= i < |names| => assert names[i] in names; Ref(names[i], Single(directory[names[i]][0])))
  }

  function GroupRefs(names: seq<string>, directory: map<string, seq<string>>): (refs: seq<Ref>)
    requires Indexed(names, directory)
  {
    seq(|names|, i requires 0 <= i < |names| => assert names[i] in names; Ref(names[i], Several(directory[names[i]])))
  }

  lemma {:induction false} WithoutNames(refs: seq<Ref>, removed: seq<string>)
    ensures NamesOf(Without(refs, removed)) == NamesOf(refs) - (set x | x in removed)
  {
    if refs != [] {
      var n := |refs| - 1;
      WithoutNames(refs[..n], removed);
      assert refs == refs[..n] + [refs[n]];
      NamesOfJoin(refs[..n], [refs[n]]);
      NamesOfJoin(Without(refs[..n], removed), if refs[n].name in removed then [] else [refs[n]]);
    }
  }

  lemma NamesOfJoin(a: seq<Ref>, b: seq<Ref>)
    ensures NamesOf(a + b) == NamesOf(a) + NamesOf(b)
  {
    assert forall r :: r in a + b <==> r in a || r in b;
  }

  lemma NewNames(names: seq<string>, directory: map<string, seq<string>>)
    ensures Known(names, directory) ==> NamesOf(UserRefs(names, directory)) == set x | x in names
    ensures Indexed(names, directory) ==> NamesOf(GroupRefs(names, directory)) == set x | x in names
  {
    if Known(names, directory) {
      var refs := UserRefs(names, directory);
      forall x <- names ensures x in NamesOf(refs) {
        var i :| 0 <= i < |names| && names[i] == x;
        assert refs[i] in refs;
      }
    }
    if Indexed(names, directory) {
      var refs := GroupRefs(names, directory);
      forall x <- names ensures x in NamesOf(refs) {
        var i :| 0 <= i < |names| && names[i] == x;
        assert refs[i] in refs;
      }
    }
  }

  // ----- create

  predicate RoleTaken(acps: seq<Acp>, role: string) {
    exists a <- acps :: a.role == role
  }

  function Marked(acps: seq<Acp>): (rows: seq<Row>) {
    seq(|acps|, i requires 0 <= i < |acps| => Row(acps[i], Update))
  }

  /** The guards of `create_acp`, in order. `taken` are the ACP names the server knows anywhere. */
  predicate MayCreate(p: Project, taken: set<string>, name: string, role: string, users: seq<string>,
                      groups: seq<string>, d: Directory) {
    && (users != [] || groups != [])
    && name !in taken
    && Subset(users, p.users) && Subset(groups, p.groups)
    && role != "" && !RoleTaken(p.acps, role)
    && Known(users, d.users) && Indexed(groups, d.groups)
  }

  function CreateOutcome(p: Project, taken: set<string>, name: string, role: string, users: seq<string>,
                         groups: seq<string>, d: Directory): Outcome {
    if MayCreate(p, taken, name, role, users, groups, d) then
      Put(Marked(p.acps) + [Row(Acp(name, role, UserRefs(users, d.users), GroupRefs(groups, d.groups)), Add)])
    else Exit
  }

  /** `create_acp`; `role` is the uuid cached for the role's name, empty when there is none. */
  method CreateAcp(p: Project, taken: set<string>, name: string, role: string, users: seq<string>, groups: seq<string>,
                   d: Directory)
    returns (outcome: Outcome)
    ensures outcome == CreateOutcome(p, taken, name, role, users, groups, d)
  {
    if users == [] && groups == [] {
      return Exit;
    }
    if name in taken {
      return Exit;
    }
    if !Subset(users, p.users) || !Subset(groups, p.groups) {
      return Exit;
    }
    if role == "" {
      return Exit;
    }
    var entities, total := GetAcps(p.acps, role, "", 250, 0);
    FoundExactly(p.acps, role, "");
    if total > 0 {
      return Exit;
    }
    assert !RoleTaken(p.acps, role);
    var userRefs := ReferUsers(users, d);
    if userRefs.None? {
      return Exit;
    }
    var groupRefs := ReferGroups(groups, d);
    if groupRefs.None? {
      return Exit;
    }
    var rows := MarkUpdates(p.acps);
    outcome := Put(rows + [Row(Acp(name, role, userRefs.value, groupRefs.value), Add)]);
  }

  method ReferUsers(users: seq<string>, d: Directory) returns (refs: Option<seq<Ref>>)
    ensures refs.Some? <==> Known(users, d.users)
    ensures refs.Some? ==> refs.value == UserRefs(users, d.users)
  {
    var list: seq<Ref> := [];
    var i := 0;
    while i < |users|
      invariant i <= |users| == |users| && |list| == i
      invariant Known(users[..i], d.users)
      invariant forall k | 0 <= k < i ::
                  && users[k] in d.users && d.users[users[k]] != []
                  && list[k] == Ref(users[k], Single(d.users[users[k]][0]))
    {
      assert users[i] in users;
      if users[i] !in d.users || d.users[users[i]] == [] {
        return None;
      }
      list := list + [Ref(users[i], Single(d.users[users[i]][0]))];
      i := i + 1;
    }
    assert users[..i] == users;
    assert list == UserRefs(users, d.users);
    return Some(list);
  }

  /** A group the index does not hold stops the program with a key error. */
  method ReferGroups(groups: seq<string>, d: Directory) returns (refs: Option<seq<Ref>>)
    ensures refs.Some? <==> Indexed(groups, d.groups)
    ensures refs.Some? ==> refs.value == GroupRefs(groups, d.groups)
  {
    var list: seq<Ref> := [];
    var i := 0;
    while i < |groups|
      invariant i <= |groups| && |list| == i
      invariant Indexed(groups[..i], d.groups)
      invariant forall k | 0 <= k < i ::
                  groups[k] in d.groups && list[k] == Ref(groups[k], Several(d.groups[groups[k]]))
    {
      assert groups[i] in groups;
      if groups[i] !in d.groups {
        return None;
      }
      list := list + [Ref(groups[i], Several(d.groups[groups[i]]))];
      i := i + 1;
    }
    assert groups[..i] == groups;
    assert list == GroupRefs(groups, d.groups);
    return Some(list);
  }

  method MarkUpdates(acps: seq<Acp>) returns (rows: seq<Row>)
    ensures rows == Marked(acps)
  {
    rows := [];
    var i := 0;
    while i < |acps|
      invariant i <= |acps| && |rows| == i
      invariant forall k | 0 <= k < i :: rows[k] == Row(acps[k], Update)
    {
      rows := rows + [Row(acps[i], Update)];
      i := i + 1;
    }
  }

  // ----- delete

  function DeleteRows(acps: seq<Acp>, name: string): seq<Row> {
    seq(|acps|, i requires 0 <= i < |acps| => Row(acps[i], if acps[i].name == name then Delete else Update))
  }

  predicate Present(acps: seq<Acp>, name: string) {
    exists a <- acps :: a.name == name
  }

  function DeleteOutcome(p: Project, name: string): Outcome {
    if Present(p.acps, name) then Put(DeleteRows(p.acps, name)) else Exit
  }

  /** `delete_acp` */
  method DeleteAcp(p: Project, name: string) returns (outcome: Outcome)
    ensures outcome == DeleteOutcome(p, name)
  {
    var rows := Marked(p.acps);
    var isAcpPresent := false;
    var i := 0;
    while i < |rows|
      invariant i <= |rows| == |p.acps|
      invariant forall k | 0 <= k < i :: rows[k] == DeleteRows(p.acps, name)[k]
      invariant forall k | i <= k < |rows| :: rows[k].acp == p.acps[k]
      invariant isAcpPresent <==> exists k | 0 <= k < i :: p.acps[k].name == name
    {
      if rows[i].acp.name == name {
        rows := rows[i := rows[i].(operation := Delete)];
        isAcpPresent := true;
      } else {
        rows := rows[i := rows[i].(operation := Update)];
      }
      i := i + 1;
    }
    assert isAcpPresent <==> Present(p.acps, name);
    if !isAcpPresent {
      return Exit;
    }
    assert rows == DeleteRows(p.acps, name);
    outcome := Put(rows);
  }

  // ----- update

  datatype Change = Change(addUsers: seq<string>, addGroups: seq<string>, removeUsers: seq<string>,
                           removeGroups: seq<string>)

  predicate Disjoint(a: seq<string>, b: seq<string>) {
    forall x <- a :: x !in b
  }

  /** The guards that look at the project and the arguments only. */
  predicate ChangeAllowed(p: Project, c: Change) {
    && (c.addUsers != [] || c.addGroups != [] || c.removeUsers != [] || c.removeGroups != [])
    && Subset(c.addUsers, p.users) && Subset(c.addGroups, p.groups)
    && Disjoint(c.addUsers, c.removeUsers) && Disjoint(c.addGroups, c.removeGroups)
  }

  predicate InRefs(names: seq<string>, refs: seq<Ref>) {
    forall n <- names :: n in NamesOf(refs)
  }

  /** The guards that look at an ACP of the given name. */
  predicate Applies(a: Acp, c: Change, d: Directory) {
    InRefs(c.removeUsers, a.users) && InRefs(c.removeGroups, a.groups) && Known(c.addUsers, d.users)
        && Indexed(c.addGroups, d.groups)
  }

  function Changed(a: Acp, c: Change, d: Directory): Acp
    requires Known(c.addUsers, d.users) && Indexed(c.addGroups, d.groups)
  {
    a.(users := Without(a.users, c.removeUsers) + UserRefs(c.addUsers, d.users),
       groups := Without(a.groups, c.removeGroups) + GroupRefs(c.addGroups, d.groups))
  }

  predicate MayUpdate(p: Project, name: string, c: Change, d: Directory) {
    && ChangeAllowed(p, c)
    && Present(p.acps, name)
    && forall a <- p.acps :: a.name == name ==> Applies(a, c, d)
  }

  function UpdateRows(acps: seq<Acp>, name: string, c: Change, d: Directory): seq<Row>
    requires Known(c.addUsers, d.users) && Indexed(c.addGroups, d.groups)
  {
    seq(|acps|, i requires 0 <= i < |acps| =>
      Row(if acps[i].name == name then Changed(acps[i], c, d) else acps[i], Update))
  }

  function UpdateOutcome(p: Project, name: string, c: Change, d: Directory): Outcome {
    if MayUpdate(p, name, c, d) then
      var a :| a in p.acps && a.name == name && Applies(a, c, d);
      Put(UpdateRows(p.acps, name, c, d))
    else Exit
  }

  method FilterRefs(refs: seq<Ref>, removed: seq<string>) returns (kept: seq<Ref>)
    ensures kept == Without(refs, removed)
  {
    kept := [];
    var i := 0;
    while i < |refs|
      invariant i <= |refs| && kept == Without(refs[..i], removed)
    {
      assert refs[..i+1][..i] == refs[..i];
      if refs[i].name !in removed {
        kept := kept + [refs[i]];
      } else {
        assert kept + [] == kept;
      }
      i := i + 1;
    }
    assert refs[..i] == refs;
  }

  /** The changes of `update_acp` to one ACP, or None when a guard ends the program. */
  method ChangeAcp(a: Acp, c: Change, d: Directory) returns (changed: Option<Acp>)
    ensures changed.Some? <==> Applies(a, c, d)
    ensures changed.Some? ==> changed.value == Changed(a, c, d)
  {
    if !InRefs(c.removeUsers, a.users) || !InRefs(c.removeGroups, a.groups) {
      return None;
    }
    var users := FilterRefs(a.users, c.removeUsers);
    var groups := FilterRefs(a.groups, c.removeGroups);
    var newUsers := ReferUsers(c.addUsers, d);
    if newUsers.None? {
      return None;
    }
    var newGroups := ReferGroups(c.addGroups, d);
    if newGroups.None? {
      return None;
    }
    changed := Some(a.(users := users + newUsers.value, groups := groups + newGroups.value));
  }

  /** `update_acp` */
  method UpdateAcp(p: Project, name: string, c: Change, d: Directory) returns (outcome: Outcome)
    ensures outcome == UpdateOutcome(p, name, c, d)
  {
    if !ChangeAllowed(p, c) {
      return Exit;
    }
    var rows := Marked(p.acps);
    var isAcpPresent := false;
    var i := 0;
    while i < |rows|
      invariant i <= |rows| == |p.acps|
      invariant isAcpPresent <==> exists k | 0 <= k < i :: p.acps[k].name == name
      invariant forall k | 0 <= k < i && p.acps[k].name == name :: Applies(p.acps[k], c, d)
      invariant forall k | 0 <= k < i && p.acps[k].name == name :: rows[k] == Row(Changed(p.acps[k], c, d), Update)
      invariant forall k | 0 <= k < |rows| && (i <= k || p.acps[k].name != name) :: rows[k] == Row(p.acps[k], Update)
    {
      assert p.acps[i] in p.acps;
      if rows[i].acp.name == name {
        isAcpPresent := true;
        var changed := ChangeAcp(rows[i].acp, c, d);
        if changed.None? {
          return Exit;
        }
        rows := rows[i := Row(changed.value, Update)];
      }
      i := i + 1;
    }
    assert isAcpPresent <==> Present(p.acps, name);
    if !isAcpPresent {
      return Exit;
    }
    assert MayUpdate(p, name, c, d);
    assert rows == UpdateRows(p.acps, name, c, d);
    outcome := Put(rows);
  }

  // ----- what is sent, row by row

  /** References to the users named, in order, each with the first uuid listed under its own name. */
  ghost predicate UsersNamed(refs: seq<Ref>, names: seq<string>, directory: map<string, seq<string>>) {
    |refs| == |names| && forall k | 0 <= k < |names| ::
      && names[k] in directory && directory[names[k]] != []
      && refs[k].name == names[k] && refs[k].uuid == Single(directory[names[k]][0])
  }

  /** References to the groups named, in order, each with all uuids listed under its own name. */
  ghost predicate GroupsNamed(refs: seq<Ref>, names: seq<string>, directory: map<string, seq<string>>) {
    |refs| == |names| && forall k | 0 <= k < |names| ::
      && names[k] in directory
      && refs[k].name == names[k] && refs[k].uuid == Several(directory[names[k]])
  }

  lemma UsersAreNamed(names: seq<string>, directory: map<string, seq<string>>)
    requires Known(names, directory)
    ensures UsersNamed(UserRefs(names, directory), names, directory)
  {
    assert forall k | 0 <= k < |names| :: names[k] in names;
  }

  lemma GroupsAreNamed(names: seq<string>, directory: map<string, seq<string>>)
    requires Indexed(names, directory)
    ensures GroupsNamed(GroupRefs(names, directory), names, directory)
  {
    assert forall k | 0 <= k < |names| :: names[k] in names;
  }

  /** The rows of a create: the old ACPs as they were, and last the new one with everybody's own uuid. */
  lemma CreateSends(p: Project, taken: set<string>, name: string, role: string, users: seq<string>,
                    groups: seq<string>, d: Directory)
    requires CreateOutcome(p, taken, name, role, users, groups, d).Put?
    ensures var rows := CreateOutcome(p, taken, name, role, users, groups, d).rows;
      && |rows| == |p.acps| + 1
      && (forall k | 0 <= k < |p.acps| :: rows[k].acp == p.acps[k] && rows[k].operation == Update)
      && rows[|p.acps|].operation == Add
      && rows[|p.acps|].acp.name == name && rows[|p.acps|].acp.role == role
      && UsersNamed(rows[|p.acps|].acp.users, users, d.users)
      && GroupsNamed(rows[|p.acps|].acp.groups, groups, d.groups)
  {
    UsersAreNamed(users, d.users);
    GroupsAreNamed(groups, d.groups);
  }

  /** A create is sent exactly when somebody is named, the names are known and neither name nor role is taken. */
  lemma CreateSentExactly(p: Project, taken: set<string>, name: string, role: string, users: seq<string>,
                          groups: seq<string>, d: Directory)
    ensures CreateOutcome(p, taken, name, role, users, groups, d).Put?
            <==>
            && |users| + |groups| > 0
            && (forall u | u in users :: u in p.users && u in d.users && |d.users[u]| > 0)
            && (forall g | g in groups :: g in p.groups && g in d.groups)
            && name !in taken && |role| > 0
            && (forall k | 0 <= k < |p.acps| :: p.acps[k].role != role)
  {
    assert (forall k | 0 <= k < |p.acps| :: p.acps[k].role != role) <==> !RoleTaken(p.acps, role);
  }

  /** `after` is what stays of `before`, in order; `at` are the places of it. */
  ghost predicate Staying(before: seq<Ref>, removed: seq<string>, after: seq<Ref>, at: seq<nat>) {
    && |after| == |at|
    && (forall i, k | 0 <= i < k < |at| :: at[i] < at[k])
    && (forall i | 0 <= i < |at| :: at[i] < |before| && after[i] == before[at[i]])
    && (forall n: nat | n < |before| :: n in at <==> before[n].name !in removed)
  }

  lemma {:induction false} WithoutStays(refs: seq<Ref>, removed: seq<string>) returns (at: seq<nat>)
    ensures Staying(refs, removed, Without(refs, removed), at)
  {
    if refs == [] {
      at := [];
    } else {
      var n := |refs| - 1;
      var before := WithoutStays(refs[..n], removed);
      at := if refs[n].name in removed then before else before + [n];
      StayingGrows(refs, removed, Without(refs[..n], removed), before);
    }
  }

  lemma StayingGrows(refs: seq<Ref>, removed: seq<string>, kept: seq<Ref>, at: seq<nat>)
    requires refs != [] && Staying(refs[..|refs|-1], removed, kept, at)
    ensures var n := |refs| - 1;
      if refs[n].name in removed then Staying(refs, removed, kept, at) && kept + [] == kept
      else Staying(refs, removed, kept + [refs[n]], at + [n])
  {
    var n := |refs| - 1;
    var more := if refs[n].name in removed then at else at + [n];
    forall m: nat | m < |refs| ensures m in more <==> refs[m].name !in removed {
      if m < n {
        assert refs[..n][m] == refs[m];
      }
    }
  }

  /**
   The rows of an update: an ACP of another name as it was; one of that name with the references not
   removed, in order, and after them those of the added with everybody's own uuid.
   */
  lemma UpdateSends(p: Project, name: string, c: Change, d: Directory, i: nat)
    returns (users: seq<nat>, groups: seq<nat>)
    requires UpdateOutcome(p, name, c, d).Put? && i < |p.acps|
    ensures var rows := UpdateOutcome(p, name, c, d).rows;
      && |rows| == |p.acps| && rows[i].operation == Update
      && (p.acps[i].name != name ==> rows[i].acp == p.acps[i])
      && (p.acps[i].name == name ==>
        var before, after, m, n := p.acps[i], rows[i].acp, |users|, |groups|;
        && after.name == name && after.role == before.role
        && m <= |after.users| && n <= |after.groups|
        && Staying(before.users, c.removeUsers, after.users[..m], users)
        && UsersNamed(after.users[m..], c.addUsers, d.users)
        && Staying(before.groups, c.removeGroups, after.groups[..n], groups)
        && GroupsNamed(after.groups[n..], c.addGroups, d.groups))
  {
    var a := p.acps[i];
    users := WithoutStays(a.users, c.removeUsers);
    groups := WithoutStays(a.groups, c.removeGroups);
    UsersAreNamed(c.addUsers, d.users);
    GroupsAreNamed(c.addGroups, d.groups);
    hide Without, UserRefs, GroupRefs, Staying, UsersNamed, GroupsNamed, Applies, ChangeAllowed;
    if a.name == name {
      var keptUsers, keptGroups := Without(a.users, c.removeUsers), Without(a.groups, c.removeGroups);
      StayingLength(a.users, c.removeUsers, keptUsers, users);
      StayingLength(a.groups, c.removeGroups, keptGroups, groups);
      var after := UpdateOutcome(p, name, c, d).rows[i].acp;
      assert after.users[..|users|] == keptUsers && after.users[|users|..] == UserRefs(c.addUsers, d.users);
      assert after.groups[..|groups|] == keptGroups && after.groups[|groups|..] == GroupRefs(c.addGroups, d.groups);
    }
  }

  lemma StayingLength(before: seq<Ref>, removed: seq<string>, after: seq<Ref>, at: seq<nat>)
    requires Staying(before, removed, after, at)
    ensures |after| == |at|
  {
  }

  /** An update is sent exactly when it names somebody and every ACP of the name can be changed so. */
  lemma UpdateSentExactly(p: Project, name: string, c: Change, d: Directory)
    ensures UpdateOutcome(p, name, c, d).Put?
            <==>
            && |c.addUsers| + |c.addGroups| + |c.removeUsers| + |c.removeGroups| > 0
            && (forall u | u in c.addUsers :: u in p.users && u !in c.removeUsers && u in d.users && |d.users[u]| > 0)
            && (forall g | g in c.addGroups :: g in p.groups && g !in c.removeGroups && g in d.groups)
            && (exists k :: 0 <= k < |p.acps| && p.acps[k].name == name)
            && (forall k, u | 0 <= k < |p.acps| && p.acps[k].name == name && u in c.removeUsers ::
                  exists r :: r in p.acps[k].users && r.name == u)
            && (forall k, g | 0 <= k < |p.acps| && p.acps[k].name == name && g in c.removeGroups ::
                  exists r :: r in p.acps[k].groups && r.name == g)
  {
  }

  /** A delete is sent exactly when an ACP has the name; it marks those to delete and leaves all as they were. */
  lemma DeleteSendsExactly(p: Project, name: string)
    ensures DeleteOutcome(p, name).Put? <==> exists k :: 0 <= k < |p.acps| && p.acps[k].name == name
    ensures DeleteOutcome(p, name).Put? ==>
      var rows := DeleteOutcome(p, name).rows;
      && |rows| == |p.acps|
      && forall k | 0 <= k < |rows| ::
        rows[k].acp == p.acps[k] && rows[k].operation == if p.acps[k].name == name then Delete else Update
  {
  }

  // ----- what an update does to members

  /** New member names are the old ones minus the removed plus the added, in every ACP of that name; others stay. */
  lemma UpdateMembers(p: Project, name: string, c: Change, d: Directory, i: nat)
    requires UpdateOutcome(p, name, c, d).Put? && i < |p.acps|
    ensures |UpdateOutcome(p, name, c, d).rows| == |p.acps|
    ensures var before, after := p.acps[i], UpdateOutcome(p, name, c, d).rows[i].acp;
      && after.name == before.name && after.role == before.role
      && (before.name != name ==> after == before)
      && (before.name == name ==>
            && NamesOf(after.users) == NamesOf(before.users) - (set x | x in c.removeUsers) + (set x | x in c.addUsers)
            && NamesOf(after.groups) == NamesOf(before.groups) - (set x | x in c.removeGroups)
                + (set x | x in c.addGroups))
  {
    var a := p.acps[i];
    assert a in p.acps;
    if a.name == name {
      WithoutNames(a.users, c.removeUsers);
      WithoutNames(a.groups, c.removeGroups);
      NewNames(c.addUsers, d.users);
      NewNames(c.addGroups, d.groups);
      NamesOfJoin(Without(a.users, c.removeUsers), UserRefs(c.addUsers, d.users));
      NamesOfJoin(Without(a.groups, c.removeGroups), GroupRefs(c.addGroups, d.groups));
    }
  }

  lemma {:induction false} WithoutJoin(a: seq<Ref>, b: seq<Ref>, removed: seq<string>)
    ensures Without(a + b, removed) == Without(a, removed) + Without(b, removed)
  {
    if b == [] {
      assert a + b == a;
    } else {
      assert (a + b)[..|a + b|-1] == a + b[..|b|-1];
      WithoutJoin(a, b[..|b|-1], removed);
    }
  }

  lemma {:induction false} WithoutAll(refs: seq<Ref>, removed: seq<string>)
    requires forall r <- refs :: r.name in removed
    ensures Without(refs, removed) == []
  {
    if refs != [] {
      WithoutAll(refs[..|refs|-1], removed);
    }
  }

  lemma {:induction false} WithoutNone(refs: seq<Ref>, removed: seq<string>)
    requires forall r | r in refs :: r.name !in removed
    ensures Without(refs, removed) == refs
  {
    if refs != [] {
      var n := |refs| - 1;
      assert refs[n] in refs;
      assert Without(refs, removed) == Without(refs[..n], removed) + [refs[n]];
      hide Without;
      WithoutNone(refs[..n], removed);
      assert refs == refs[..n] + [refs[n]];
    }
  }

  lemma {:induction false} WithoutLength(refs: seq<Ref>, removed: seq<string>)
    ensures |Without(refs, removed)| <= |refs|
    ensures |Without(refs, removed)| == |refs| ==> forall i | 0 <= i < |refs| :: refs[i].name !in removed
  {
    if refs != [] {
      WithoutLength(refs[..|refs|-1], removed);
    }
  }

  /** Removing is the identity exactly when nothing removed was there. */
  lemma WithoutSameExactly(refs: seq<Ref>, removed: seq<string>)
    ensures Without(refs, removed) == refs <==> forall r | r in refs :: r.name !in removed
  {
    WithoutLength(refs, removed);
    if forall r | r in refs :: r.name !in removed {
      WithoutNone(refs, removed);
    }
  }

  predicate NoneOf(refs: seq<Ref>, names: seq<string>) {
    forall r | r in refs :: r.name !in names
  }

  lemma AddThenWithout(refs: seq<Ref>, added: seq<Ref>, names: seq<string>)
    requires NamesOf(added) == set x | x in names
    ensures InRefs(names, Without(refs, []) + added)
    ensures Without(Without(refs, []) + added, names) == refs <==> NoneOf(refs, names)
  {
    WithoutSameExactly(refs, []);
    NamesOfJoin(refs, added);
    WithoutJoin(refs, added, names);
    forall r | r in added ensures r.name in names {
      assert r.name in NamesOf(added);
    }
    WithoutAll(added, names);
    WithoutSameExactly(refs, names);
    assert Without(refs, names) + [] == Without(refs, names);
  }

  function Adding(users: seq<string>, groups: seq<string>): Change {
    Change(users, groups, [], [])
  }

  function Removing(users: seq<string>, groups: seq<string>): Change {
    Change([], [], users, groups)
  }

  /**
   Adding members and then removing them gives back the very lists of references there were,
   exactly when none of them was a member before.
   */
  lemma AddThenRemoveExactly(a: Acp, users: seq<string>, groups: seq<string>, d: Directory, later: Directory)
    requires Known(users, d.users) && Indexed(groups, d.groups)
    ensures var added := Changed(a, Adding(users, groups), d);
      && Applies(added, Removing(users, groups), later)
      && (Changed(added, Removing(users, groups), later) == a <==> NoneOf(a.users, users) && NoneOf(a.groups, groups))
  {
    NewNames(users, d.users);
    NewNames(groups, d.groups);
    AddThenWithout(a.users, UserRefs(users, d.users), users);
    AddThenWithout(a.groups, GroupRefs(groups, d.groups), groups);
    var added := Changed(a, Adding(users, groups), d);
    hide Without, UserRefs, GroupRefs, InRefs, NoneOf;
    var back := Changed(added, Removing(users, groups), later);
    assert back.users == Without(added.users, users) + [] && back.groups == Without(added.groups, groups) + [];
    assert Without(added.users, users) + [] == Without(added.users, users);
    assert Without(added.groups, groups) + [] == Without(added.groups, groups);
  }

  // ----- runs

  /** The server applies each row's operation. */
  function Applied(rows: seq<Row>): seq<Acp> {
    if rows == [] then []
    else Applied(rows[..|rows|-1]) + (if rows[|rows|-1].operation == Delete then [] else [rows[|rows|-1].acp])
  }

  datatype Command =
    | Create(name: string, role: string, users: seq<string>, groups: seq<string>)
    | ChangeMembers(name: string, change: Change)
    | Remove(name: string)

  /** `others` are the names of ACPs outside the project. */
  function OutcomeOf(p: Project, others: set<string>, command: Command, d: Directory): Outcome {
    match command
    case Create(name, role, users, groups) =>
      CreateOutcome(p, others + (set a | a in p.acps :: a.name), name, role, users, groups, d)
    case ChangeMembers(name, change) => UpdateOutcome(p, name, change, d)
    case Remove(name) => DeleteOutcome(p, name)
  }

  function Step(p: Project, others: set<string>, command: Command, d: Directory): Project {
    match OutcomeOf(p, others, command, d)
    case Exit => p
    case Put(rows) => p.(acps := Applied(rows))
  }

  /** Between commands, ACPs elsewhere and the directory may change in any way. */
  datatype Turn = Turn(command: Command, others: set<string>, directory: Directory)

  function Run(p: Project, turns: seq<Turn>): Project {
    if turns == [] then p
    else
      var t := turns[|turns|-1];
      Step(Run(p, turns[..|turns|-1]), t.others, t.command, t.directory)
  }

  predicate Within(names: set<string>, members: seq<string>) {
    forall n <- names :: n in members
  }

  predicate MembersOfProject(p: Project, a: Acp) {
    Within(NamesOf(a.users), p.users) && Within(NamesOf(a.groups), p.groups)
  }

  predicate Distinct(acps: seq<Acp>) {
    forall i, k | 0 <= i < k < |acps| :: acps[i].name != acps[k].name && acps[i].role != acps[k].role
  }

  /** Members stay inside the project, names and roles occur once. */
  predicate Sound(p: Project) {
    Distinct(p.acps) && forall a <- p.acps :: MembersOfProject(p, a)
  }

  function Count(rows: seq<Row>, op: Operation): nat {
    if rows == [] then 0 else Count(rows[..|rows|-1], op) + (if rows[|rows|-1].operation == op then 1 else 0)
  }

  lemma {:induction false} CountNone(rows: seq<Row>, op: Operation)
    requires forall r <- rows :: r.operation != op
    ensures Count(rows, op) == 0
  {
    if rows != [] {
      CountNone(rows[..|rows|-1], op);
    }
  }

  lemma {:induction false} CountOne(rows: seq<Row>, op: Operation, i: nat)
    requires i < |rows| && rows[i].operation == op
    requires forall k | 0 <= k < |rows| && k != i :: rows[k].operation != op
    ensures Count(rows, op) == 1
  {
    var n := |rows| - 1;
    if i == n {
      CountNone(rows[..n], op);
    } else {
      CountOne(rows[..n], op, i);
    }
  }

  /** Exactly one row is not an update: the one of the given name, marked `op`. */
  ghost predicate MarksOne(rows: seq<Row>, op: Operation, name: string) {
    && Count(rows, op) == 1
    && (forall r | r in rows :: r.operation == op || r.operation == Update)
    && (forall r | r in rows :: r.operation == op <==> r.acp.name == name)
  }

  lemma CreateMarks(acps: seq<Acp>, added: Acp)
    requires !Present(acps, added.name)
    ensures MarksOne(Marked(acps) + [Row(added, Add)], Add, added.name)
  {
    var rows := Marked(acps) + [Row(added, Add)];
    forall k | 0 <= k < |acps| ensures rows[k].operation == Update && rows[k].acp.name != added.name {
      assert acps[k] in acps;
    }
    CountOne(rows, Add, |acps|);
  }

  lemma DeleteMarks(acps: seq<Acp>, name: string)
    requires Present(acps, name) && Distinct(acps)
    ensures MarksOne(DeleteRows(acps, name), Delete, name)
  {
    var a :| a in acps && a.name == name;
    var i :| 0 <= i < |acps| && acps[i] == a;
    CountOne(DeleteRows(acps, name), Delete, i);
  }

  /**
   A create marks one ACP to add and a delete one to delete, the one the command names, and every
   other ACP as an update; an update marks all of them so.
   */
  lemma PayloadMarks(p: Project, others: set<string>, command: Command, d: Directory)
    requires Sound(p) && OutcomeOf(p, others, command, d).Put?
    ensures var rows := OutcomeOf(p, others, command, d).rows;
      match command
      case Create(name, _, _, _) => MarksOne(rows, Add, name)
      case Remove(name) => MarksOne(rows, Delete, name)
      case ChangeMembers(_, _) => forall r | r in rows :: r.operation == Update
  {
    match command
    case Create(name, role, users, groups) =>
      CreateMarks(p.acps, Acp(name, role, UserRefs(users, d.users), GroupRefs(groups, d.groups)));
    case ChangeMembers(name, change) =>
    case Remove(name) => DeleteMarks(p.acps, name);
  }

  lemma {:induction false} AppliedUpdates(rows: seq<Row>)
    requires forall r <- rows :: r.operation != Delete
    ensures |Applied(rows)| == |rows| && forall i | 0 <= i < |rows| :: Applied(rows)[i] == rows[i].acp
  {
    if rows != [] {
      AppliedUpdates(rows[..|rows|-1]);
    }
  }

  /** What is left after a delete comes from rows not deleted. */
  lemma {:induction false} AppliedFrom(rows: seq<Row>, a: Acp)
    requires a in Applied(rows)
    ensures exists i | 0 <= i < |rows| :: rows[i].acp == a && rows[i].operation != Delete
  {
    var n := |rows| - 1;
    if a in Applied(rows[..n]) {
      AppliedFrom(rows[..n], a);
      var i :| 0 <= i < n && rows[..n][i].acp == a && rows[..n][i].operation != Delete;
      assert rows[i].acp == a;
    } else {
      assert rows[n].acp == a;
    }
  }

  lemma {:induction false} AppliedDistinct(rows: seq<Row>)
    requires forall i, k | 0 <= i < k < |rows| ::
                rows[i].acp.name != rows[k].acp.name && rows[i].acp.role != rows[k].acp.role
    ensures Distinct(Applied(rows))
  {
    if rows != [] {
      var n := |rows| - 1;
      AppliedDistinct(rows[..n]);
      var before := Applied(rows[..n]);
      forall a | a in before ensures a.name != rows[n].acp.name && a.role != rows[n].acp.role {
        AppliedFrom(rows[..n], a);
      }
      DistinctAppend(before, rows[n].acp);
    }
  }

  lemma DistinctAppend(acps: seq<Acp>, a: Acp)
    requires Distinct(acps)
    requires forall b | b in acps :: b.name != a.name && b.role != a.role
    ensures Distinct(acps + [a]) && acps + [] == acps
  {
  }

  lemma CreateSound(p: Project, taken: set<string>, name: string, role: string, users: seq<string>,
                    groups: seq<string>, d: Directory)
    requires Sound(p) && CreateOutcome(p, taken, name, role, users, groups, d).Put?
    requires forall a <- p.acps :: a.name in taken
    ensures Sound(p.(acps := Applied(CreateOutcome(p, taken, name, role, users, groups, d).rows)))
  {
    hide NamesOf, UserRefs, GroupRefs, Known, Indexed;
    var acp := CreatedAcp(name, role, users, groups, d);
    CreatedList(p, taken, name, role, users, groups, d);
    CreatedMember(p, taken, name, role, users, groups, d);
    hide Applied, CreateOutcome, MembersOfProject;
    forall b | b in p.acps ensures b.name != acp.name && b.role != acp.role {
    }
    DistinctAppend(p.acps, acp);
  }

  function CreatedAcp(name: string, role: string, users: seq<string>, groups: seq<string>, d: Directory): Acp
    requires Known(users, d.users) && Indexed(groups, d.groups)
  {
    Acp(name, role, UserRefs(users, d.users), GroupRefs(groups, d.groups))
  }

  /** After a create: the old ACPs and the new one. */
  lemma CreatedList(p: Project, taken: set<string>, name: string, role: string, users: seq<string>,
                    groups: seq<string>, d: Directory)
    requires CreateOutcome(p, taken, name, role, users, groups, d).Put?
    ensures Applied(CreateOutcome(p, taken, name, role, users, groups, d).rows) == p.acps
            + [CreatedAcp(name, role, users, groups, d)]
  {
    hide MayCreate, UserRefs, GroupRefs;
    var rows := CreateOutcome(p, taken, name, role, users, groups, d).rows;
    AppliedUpdates(rows);
    assert |Applied(rows)| == |p.acps| + 1;
    assert forall i | 0 <= i < |p.acps| :: Applied(rows)[i] == p.acps[i];
  }

  /** The new ACP names members of the project only. */
  lemma CreatedMember(p: Project, taken: set<string>, name: string, role: string, users: seq<string>,
                      groups: seq<string>, d: Directory)
    requires CreateOutcome(p, taken, name, role, users, groups, d).Put?
    ensures MembersOfProject(p, CreatedAcp(name, role, users, groups, d))
  {
    hide NamesOf, UserRefs, GroupRefs;
    NewNames(users, d.users);
    NewNames(groups, d.groups);
  }

  lemma UpdateSound(p: Project, name: string, c: Change, d: Directory)
    requires Sound(p) && UpdateOutcome(p, name, c, d).Put?
    ensures Sound(p.(acps := Applied(UpdateOutcome(p, name, c, d).rows)))
  {
    hide Without, NamesOf;
    var rows := UpdateOutcome(p, name, c, d).rows;
    AppliedUpdates(rows);
    var acps := Applied(rows);
    forall i | 0 <= i < |acps|
      ensures acps[i].name == p.acps[i].name && acps[i].role == p.acps[i].role && MembersOfProject(p, acps[i])
    {
      UpdateMembers(p, name, c, d, i);
      assert p.acps[i] in p.acps;
    }
  }

  lemma DeleteSound(p: Project, name: string)
    requires Sound(p) && DeleteOutcome(p, name).Put?
    ensures Sound(p.(acps := Applied(DeleteOutcome(p, name).rows)))
    ensures forall a :: a in Applied(DeleteOutcome(p, name).rows) <==> a in p.acps && a.name != name
  {
    var rows := DeleteOutcome(p, name).rows;
    AppliedDistinct(rows);
    AppliedKeeps(rows);
    forall a ensures a in Applied(rows) <==> a in p.acps && a.name != name {
      if a in p.acps && a.name != name {
        var i :| 0 <= i < |p.acps| && p.acps[i] == a;
        assert rows[i] == Row(a, Update) && rows[i] in rows;
      }
      if a in Applied(rows) {
        AppliedFrom(rows, a);
        var i :| 0 <= i < |rows| && rows[i].acp == a && rows[i].operation != Delete;
        assert p.acps[i] in p.acps;
      }
    }
  }

  lemma {:induction false} AppliedKeeps(rows: seq<Row>)
    ensures forall r <- rows :: r.operation != Delete ==> r.acp in Applied(rows)
  {
    if rows != [] {
      AppliedKeeps(rows[..|rows|-1]);
      assert rows == rows[..|rows|-1] + [rows[|rows|-1]];
    }
  }

  lemma StepSound(p: Project, others: set<string>, command: Command, d: Directory)
    requires Sound(p)
    ensures Sound(Step(p, others, command, d))
  {
    if OutcomeOf(p, others, command, d).Put? {
      match command
      case Create(name, role, users, groups) =>
        CreateSound(p, others + (set a | a in p.acps :: a.name), name, role, users, groups, d);
      case ChangeMembers(name, change) => UpdateSound(p, name, change, d);
      case Remove(name) => DeleteSound(p, name);
    }
  }

  /**
   Over every run of creates, updates and deletes: members of ACPs stay members of the project, at
   most one ACP has a role, and names stay unique.
   */
  lemma {:induction false} RunSound(p: Project, turns: seq<Turn>)
    requires Sound(p)
    ensures Sound(Run(p, turns)) && Run(p, turns).users == p.users && Run(p, turns).groups == p.groups
  {
    if turns != [] {
      var t := turns[|turns|-1];
      RunSound(p, turns[..|turns|-1]);
      StepSound(Run(p, turns[..|turns|-1]), t.others, t.command, t.directory);
    }
  }

  predicate Undisturbed(acps: seq<Acp>, name: string, users: seq<string>, groups: seq<string>) {
    forall i | 0 <= i < |acps| && acps[i].name == name :: NoneOf(acps[i].users, users) && NoneOf(acps[i].groups, groups)
  }

  /** `q` is `p` with the change made to every ACP of that name. */
  predicate ChangedTo(p: Project, q: Project, name: string, c: Change, d: Directory) {
    && q.users == p.users && q.groups == p.groups && |q.acps| == |p.acps|
    && Known(c.addUsers, d.users) && Indexed(c.addGroups, d.groups)
    && forall i | 0 <= i < |p.acps| :: q.acps[i] == if p.acps[i].name == name then Changed(p.acps[i], c, d)
        else p.acps[i]
  }

  lemma MayRemoveAdded(p: Project, q: Project, name: string, users: seq<string>, groups: seq<string>, d: Directory,
                       later: Directory)
    requires MayUpdate(p, name, Adding(users, groups), d) && ChangedTo(p, q, name, Adding(users, groups), d)
    ensures MayUpdate(q, name, Removing(users, groups), later)
  {
    hide Known, Indexed, Without, UserRefs, GroupRefs, NamesOf, Applies;
    var k :| 0 <= k < |p.acps| && p.acps[k].name == name;
    assert q.acps[k] in q.acps && q.acps[k].name == name;
    forall a | a in q.acps && a.name == name ensures Applies(a, Removing(users, groups), later) {
      var i :| 0 <= i < |q.acps| && q.acps[i] == a;
      AddThenRemoveExactly(p.acps[i], users, groups, d, later);
    }
  }

  /**
   An update that adds members can always be followed by one that removes them; the pair gives back
   the project exactly when no ACP of that name had any of them.
   */
  lemma UpdateUndoneExactly(p: Project, others: set<string>, name: string, users: seq<string>, groups: seq<string>,
                            d: Directory, later: Directory)
    requires OutcomeOf(p, others, ChangeMembers(name, Adding(users, groups)), d).Put?
    ensures var q := Step(p, others, ChangeMembers(name, Adding(users, groups)), d);
      && OutcomeOf(q, others, ChangeMembers(name, Removing(users, groups)), later).Put?
      && (Step(q, others, ChangeMembers(name, Removing(users, groups)), later) == p
          <==> Undisturbed(p.acps, name, users, groups))
  {
    var add, remove := Adding(users, groups), Removing(users, groups);
    assert MayUpdate(p, name, add, d);
    hide *;
    var q := UpdateStep(p, others, name, add, d);
    MayRemoveAdded(p, q, name, users, groups, d, later);
    var back := UpdateStep(q, others, name, remove, later);
    UndoneEach(p, q, back, name, users, groups, d, later);
  }

  lemma UpdateStep(p: Project, others: set<string>, name: string, c: Change, d: Directory) returns (q: Project)
    requires MayUpdate(p, name, c, d)
    ensures OutcomeOf(p, others, ChangeMembers(name, c), d).Put?
    ensures q == Step(p, others, ChangeMembers(name, c), d) && ChangedTo(p, q, name, c, d)
  {
    q := Step(p, others, ChangeMembers(name, c), d);
    var a :| a in p.acps && a.name == name;
    assert Applies(a, c, d);
    AppliedUpdates(UpdateRows(p.acps, name, c, d));
  }

  lemma UndoneEach(p: Project, q: Project, back: Project, name: string, users: seq<string>, groups: seq<string>,
                   d: Directory, later: Directory)
    requires ChangedTo(p, q, name, Adding(users, groups), d) && ChangedTo(q, back, name, Removing(users, groups), later)
    ensures back == p <==> Undisturbed(p.acps, name, users, groups)
  {
    hide Known, Indexed, Without, UserRefs, GroupRefs, NamesOf, NoneOf, Applies;
    forall i | 0 <= i < |p.acps|
      ensures back.acps[i] == p.acps[i]
              <==> (p.acps[i].name == name ==> NoneOf(p.acps[i].users, users) && NoneOf(p.acps[i].groups, groups))
    {
      if p.acps[i].name == name {
        AddThenRemoveExactly(p.acps[i], users, groups, d, later);
      }
    }
    hide ChangedTo;
    if Undisturbed(p.acps, name, users, groups) {
      assert back.acps == p.acps;
    }
  }

  lemma DeleteAppended(acps: seq<Acp>, a: Acp)
    requires !Present(acps, a.name)
    ensures Present(acps + [a], a.name) && Applied(DeleteRows(acps + [a], a.name)) == acps
  {
    var rows := DeleteRows(acps + [a], a.name);
    assert (acps + [a])[|acps|] == a;
    forall i | 0 <= i < |acps| ensures rows[i] == Row(acps[i], Update) {
      assert acps[i] in acps;
    }
    assert rows[..|acps|] == Marked(acps);
    AppliedUpdates(Marked(acps));
    assert Applied(rows) == Applied(Marked(acps)) + [];
  }

  /** Creating an ACP and deleting it again gives back the project. */
  lemma CreateThenDelete(p: Project, others: set<string>, name: string, role: string, users: seq<string>,
                         groups: seq<string>, d: Directory)
    requires OutcomeOf(p, others, Create(name, role, users, groups), d).Put?
    ensures Step(Step(p, others, Create(name, role, users, groups), d), others, Remove(name), d) == p
  {
    hide Subset, Known, Indexed, UserRefs, GroupRefs;
    var a := Acp(name, role, UserRefs(users, d.users), GroupRefs(groups, d.groups));
    AppliedUpdates(Marked(p.acps) + [Row(a, Add)]);
    var q := Step(p, others, Create(name, role, users, groups), d);
    assert q.acps == p.acps + [a];
    DeleteAppended(p.acps, a);
  }
}
