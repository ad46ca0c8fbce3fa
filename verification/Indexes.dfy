/** Name and uuid indexes over listed entities, and the string-or-list form one of them takes. */
module Indexes {
  import opened Options
  import opened Pagers

  /** An entity as listed by the IAM v4 API, where either field may be missing or empty. */
  datatype Entity = Entity(name: Option<string>, extId: Option<string>)

  datatype Pair = Pair(name: string, uuid: string)

  predicate Given(s: Option<string>) {
    s.Some? && s.value != ""
  }

  /** The entities that have both fields, in order. */
  function Pairs(entities: seq<Entity>): seq<Pair> {
    if entities == [] then []
    else
      var e := entities[|entities|-1];
      Pairs(entities[..|entities|-1])
          + (if Given(e.name) && Given(e.extId) then [Pair(e.name.value, e.extId.value)] else [])
  }

  function Limited<T>(s: seq<T>, limit: Option<int>): seq<T> {
    if limit.Some? && 0 < limit.value < |s| then s[..limit.value] else s
  }

  type NameMap = map<string, seq<string>>
  type UuidMap = map<string, string>

  function Appended(m: NameMap, p: Pair): NameMap {
    m[p.name := (if p.name in m then m[p.name] else []) + [p.uuid]]
  }

  function NameIndex(pairs: seq<Pair>): NameMap {
    if pairs == [] then map[] else Appended(NameIndex(pairs[..|pairs|-1]), pairs[|pairs|-1])
  }

  function UuidIndex(pairs: seq<Pair>): UuidMap {
    if pairs == [] then map[]
    else UuidIndex(pairs[..|pairs|-1])[pairs[|pairs|-1].uuid := pairs[|pairs|-1].name]
  }

  /** The uuids listed under one name, in listing order. */
  function UuidsOf(pairs: seq<Pair>, name: string): seq<string> {
    if pairs == [] then []
    else
      var p := pairs[|pairs|-1];
      UuidsOf(pairs[..|pairs|-1], name) + (if p.name == name then [p.uuid] else [])
  }

  lemma {:induction false} NameIndexIs(pairs: seq<Pair>, name: string)
    ensures name in NameIndex(pairs) <==> UuidsOf(pairs, name) != []
    ensures name in NameIndex(pairs) ==> NameIndex(pairs)[name] == UuidsOf(pairs, name)
  {
    if pairs != [] {
      NameIndexIs(pairs[..|pairs|-1], name);
    }
  }

  lemma {:induction false} UuidsAreListed(pairs: seq<Pair>, name: string, uuid: string)
    ensures uuid in UuidsOf(pairs, name) <==> Pair(name, uuid) in pairs
  {
    if pairs != [] {
      UuidsAreListed(pairs[..|pairs|-1], name, uuid);
      assert pairs == pairs[..|pairs|-1] + [pairs[|pairs|-1]];
    }
  }

  predicate UniqueUuids(pairs: seq<Pair>) {
    forall i, k | 0 <= i < k < |pairs| :: pairs[i].uuid != pairs[k].uuid
  }

  lemma {:induction false} UuidIndexIs(pairs: seq<Pair>, uuid: string, name: string)
    requires UniqueUuids(pairs)
    ensures (uuid in UuidIndex(pairs) && UuidIndex(pairs)[uuid] == name) <==> Pair(name, uuid) in pairs
  {
    if pairs != [] {
      var n := |pairs| - 1;
      UuidIndexIs(pairs[..n], uuid, name);
      assert pairs == pairs[..n] + [pairs[n]];
      if Pair(name, uuid) in pairs[..n] {
        var i :| 0 <= i < n && pairs[..n][i] == Pair(name, uuid);
        assert pairs[i].uuid != pairs[n].uuid;
      }
    }
  }

  /** The two indexes are inverse relations. */
  lemma IndexesAgree(pairs: seq<Pair>, name: string, uuid: string)
    requires UniqueUuids(pairs)
    ensures (name in NameIndex(pairs) && uuid in NameIndex(pairs)[name])
            <==> (uuid in UuidIndex(pairs) && UuidIndex(pairs)[uuid] == name)
  {
    NameIndexIs(pairs, name);
    UuidsAreListed(pairs, name, uuid);
    UuidIndexIs(pairs, uuid, name);
  }

  // ----- how many uuids an index holds

  ghost function Total(m: NameMap): nat {
    if m == map[] then 0
    else
      var k :| k in m;
      |m[k]| + Total(m - {k})
  }

  lemma {:induction false} TotalBy(m: NameMap, k: string)
    requires k in m
    ensures Total(m) == |m[k]| + Total(m - {k})
    decreases |m|
  {
    var first :| first in m && Total(m) == |m[first]| + Total(m - {first});
    if first != k {
      TotalBy(m - {first}, k);
      TotalBy(m - {k}, first);
      assert m - {first} - {k} == m - {k} - {first};
    }
  }

  lemma AppendCounts(m: NameMap, p: Pair)
    ensures Total(Appended(m, p)) == Total(m) + 1
  {
    var more := Appended(m, p);
    TotalBy(more, p.name);
    assert more - {p.name} == m - {p.name};
    if p.name in m {
      TotalBy(m, p.name);
    } else {
      assert m - {p.name} == m;
    }
  }

  /** The lists of the name index add up to the number of entities with both fields. */
  lemma {:induction false} LengthsAddUp(pairs: seq<Pair>)
    ensures Total(NameIndex(pairs)) == |pairs|
  {
    if pairs != [] {
      LengthsAddUp(pairs[..|pairs|-1]);
      AppendCounts(NameIndex(pairs[..|pairs|-1]), pairs[|pairs|-1]);
    }
  }

  // ----- the IAM v4 builders

  lemma PairsTurn(entities: seq<Entity>, i: nat)
    requires i < |entities|
    ensures var e, before := entities[i], Pairs(entities[..i]);
      if Given(e.name) && Given(e.extId) then
        && NameIndex(Pairs(entities[..i+1])) == Appended(NameIndex(before), Pair(e.name.value, e.extId.value))
        && UuidIndex(Pairs(entities[..i+1])) == UuidIndex(before)[e.extId.value := e.name.value]
      else Pairs(entities[..i+1]) == before
  {
    var before := Pairs(entities[..i]);
    assert entities[..i+1][..i] == entities[..i];
    if Given(entities[i].name) && Given(entities[i].extId) {
      var p := Pair(entities[i].name.value, entities[i].extId.value);
      assert (before + [p])[..|before|] == before;
    } else {
      assert before + [] == before;
    }
  }

  lemma NothingListed()
    ensures NameIndex(Pairs([])) == map[] && UuidIndex(Pairs([])) == map[]
  {
  }

  /** `_get_name_uuid_map` */
  method BuildNameIndex(listed: seq<Entity>, limit: Option<int>) returns (m: NameMap)
    ensures m == NameIndex(Pairs(Limited(listed, limit)))
  {
    hide NameIndex, UuidIndex, Pairs;
    var entities := listed;
    if limit.Some? && limit.value > 0 && limit.value < |listed| {
      entities := entities[..limit.value];
    }
    m := map[];
    NothingListed();
    var i := 0;
    while i < |entities|
      invariant i <= |entities| && m == NameIndex(Pairs(entities[..i]))
    {
      PairsTurn(entities, i);
      var e := entities[i];
      if Given(e.name) {
        if Given(e.extId) {
          if e.name.value in m {
            m := m[e.name.value := m[e.name.value] + [e.extId.value]];
          } else {
            m := m[e.name.value := [e.extId.value]];
            assert [] + [e.extId.value] == [e.extId.value];
          }
        }
      }
      i := i + 1;
    }
    assert entities[..i] == entities;
  }

  /** `_get_uuid_name_map` */
  method BuildUuidIndex(listed: seq<Entity>, limit: Option<int>) returns (m: UuidMap)
    ensures m == UuidIndex(Pairs(Limited(listed, limit)))
  {
    hide NameIndex, UuidIndex, Pairs;
    var entities := listed;
    if limit.Some? && limit.value > 0 && limit.value < |listed| {
      entities := entities[..limit.value];
    }
    m := map[];
    NothingListed();
    var i := 0;
    while i < |entities|
      invariant i <= |entities| && m == UuidIndex(Pairs(entities[..i]))
    {
      PairsTurn(entities, i);
      var e := entities[i];
      if Given(e.name) && Given(e.extId) {
        m := m[e.extId.value := e.name.value];
      }
      i := i + 1;
    }
    assert entities[..i] == entities;
  }

  // ----- what the indexes hold, entity by entity

  /** Places in ascending order. */
  predicate Rising(at: seq<nat>, length: nat) {
    && (forall i, k | 0 <= i < k < |at| :: at[i] < at[k])
    && (forall i | 0 <= i < |at| :: at[i] < length)
  }

  lemma RisingAppend(at: seq<nat>, n: nat)
    requires Rising(at, n)
    ensures Rising(at, n + 1) && Rising(at + [n], n + 1)
  {
  }

  /** Neither field is missing or empty. */
  predicate Full(e: Entity) {
    match e
    case Entity(Some(name), Some(uuid)) => |name| > 0 && |uuid| > 0
    case _ => false
  }

  /** `pairs` are the entities at those places, which are exactly the places of entities with both fields. */
  ghost predicate PairedAt(entities: seq<Entity>, pairs: seq<Pair>, at: seq<nat>) {
    && Rising(at, |entities|) && |pairs| == |at|
    && (forall i | 0 <= i < |at| :: entities[at[i]] == Entity(Some(pairs[i].name), Some(pairs[i].uuid)))
    && (forall n: nat | n < |entities| :: n in at <==> Full(entities[n]))
  }

  lemma {:induction false} PairsAre(entities: seq<Entity>) returns (at: seq<nat>)
    ensures PairedAt(entities, Pairs(entities), at)
  {
    if entities == [] {
      at := [];
    } else {
      var n := |entities| - 1;
      var before := PairsAre(entities[..n]);
      at := if Full(entities[n]) then before + [n] else before;
      LastPair(entities);
      PairedAppend(entities, Pairs(entities[..n]), before);
      hide *;
    }
  }

  lemma LastPair(entities: seq<Entity>)
    requires entities != []
    ensures var e, before := entities[|entities|-1], Pairs(entities[..|entities|-1]);
      Pairs(entities) == if Full(e) then before + [Pair(e.name.value, e.extId.value)] else before
  {
  }

  lemma PairedAppend(entities: seq<Entity>, pairs: seq<Pair>, at: seq<nat>)
    requires entities != [] && PairedAt(entities[..|entities|-1], pairs, at)
    ensures var n := |entities| - 1;
      if Full(entities[n]) then
        PairedAt(entities, pairs + [Pair(entities[n].name.value, entities[n].extId.value)], at + [n])
      else PairedAt(entities, pairs, at)
  {
    var n := |entities| - 1;
    RisingAppend(at, n);
    assert Full(entities[n]) ==> entities[n] == Entity(Some(entities[n].name.value), Some(entities[n].extId.value));
    hide Full;
    forall m: nat | m < n ensures m in at <==> Full(entities[m]) {
      assert entities[..n][m] == entities[m];
    }
  }

  /** `uuids` are those of the pairs at these places, which are exactly the places of the name. */
  ghost predicate NamedAt(pairs: seq<Pair>, name: string, uuids: seq<string>, at: seq<nat>) {
    && Rising(at, |pairs|) && |uuids| == |at|
    && (forall i | 0 <= i < |at| :: pairs[at[i]] == Pair(name, uuids[i]))
    && (forall n: nat | n < |pairs| && pairs[n].name == name :: n in at)
  }

  lemma {:induction false} UuidsAre(pairs: seq<Pair>, name: string) returns (at: seq<nat>)
    ensures NamedAt(pairs, name, UuidsOf(pairs, name), at)
  {
    if pairs == [] {
      at := [];
    } else {
      var n := |pairs| - 1;
      var before := UuidsAre(pairs[..n], name);
      at := if pairs[n].name == name then before + [n] else before;
      var uuids := UuidsOf(pairs[..n], name);
      assert UuidsOf(pairs, name) == if pairs[n].name == name then uuids + [pairs[n].uuid] else uuids;
      NamedAppend(pairs, name, uuids, before);
      hide *;
    }
  }

  lemma NamedAppend(pairs: seq<Pair>, name: string, uuids: seq<string>, at: seq<nat>)
    requires pairs != [] && NamedAt(pairs[..|pairs|-1], name, uuids, at)
    ensures var n := |pairs| - 1;
      if pairs[n].name == name then NamedAt(pairs, name, uuids + [pairs[n].uuid], at + [n])
      else NamedAt(pairs, name, uuids, at)
  {
    var n := |pairs| - 1;
    RisingAppend(at, n);
    forall m: nat | m < n && pairs[m].name == name ensures m in at {
      assert pairs[..n][m] == pairs[m];
    }
  }

  /** The last pair of a uuid names it. */
  lemma {:induction false} LastName(pairs: seq<Pair>, uuid: string)
    ensures uuid in UuidIndex(pairs) <==> exists n :: 0 <= n < |pairs| && pairs[n].uuid == uuid
    ensures forall n | 0 <= n < |pairs| && pairs[n].uuid == uuid && NoLater(pairs, n) ::
              uuid in UuidIndex(pairs) && UuidIndex(pairs)[uuid] == pairs[n].name
  {
    if pairs != [] {
      var n := |pairs| - 1;
      LastName(pairs[..n], uuid);
      assert pairs == pairs[..n] + [pairs[n]];
      forall k | 0 <= k < |pairs| && pairs[k].uuid == uuid && NoLater(pairs, k)
        ensures uuid in UuidIndex(pairs) && UuidIndex(pairs)[uuid] == pairs[k].name
      {
        if k < n {
          assert pairs[..n][k] == pairs[k] && NoLater(pairs[..n], k);
        }
      }
      if exists k :: 0 <= k < |pairs| && pairs[k].uuid == uuid {
        var k :| 0 <= k < |pairs| && pairs[k].uuid == uuid;
        assert k == n || pairs[..n][k].uuid == uuid;
      }
    }
  }

  predicate NoLater(pairs: seq<Pair>, n: nat)
    requires n < |pairs|
  {
    forall k | n < k < |pairs| :: pairs[k].uuid != pairs[n].uuid
  }

  /** Whether the entity at a place is in the part of the listing an index is made of. */
  predicate Considered(all: seq<Entity>, limit: Option<int>, n: nat) {
    n < |all| && Full(all[n]) && (limit.Some? && limit.value > 0 ==> n < limit.value)
  }

  /** With a positive limit the first so many entities are considered, otherwise all. */
  lemma LimitedIs<T>(s: seq<T>, limit: Option<int>)
    ensures Limited(s, limit) <= s
    ensures |Limited(s, limit)| ==
            match limit
            case None => |s|
            case Some(most) => if most <= 0 || |s| <= most then |s| else most
  {
  }

  /** Under a name: the uuids of the considered entities of that name, in the order they are listed. */
  lemma NameIndexHolds(all: seq<Entity>, limit: Option<int>, name: string) returns (at: seq<nat>)
    ensures Rising(at, |all|)
    ensures forall n: nat :: n in at <==> Considered(all, limit, n) && all[n].name == Some(name)
    ensures var m := NameIndex(Pairs(Limited(all, limit)));
      && (name in m <==> at != [])
      && (name in m ==> |m[name]| == |at| && forall i | 0 <= i < |at| :: all[at[i]].extId == Some(m[name][i]))
  {
    var entities := Limited(all, limit);
    var pairs := Pairs(entities);
    LimitedIs(all, limit);
    NameIndexIs(pairs, name);
    var outer := PairsAre(entities);
    var inner := UuidsAre(pairs, name);
    hide Pairs, Limited, NameIndex, UuidsOf;
    at := Through(entities, pairs, name, UuidsOf(pairs, name), outer, inner);
    ConsideredAre(all, limit);
    hide Considered, Full;
    forall n: nat ensures n in at <==> Considered(all, limit, n) && all[n].name == Some(name) {
    }
  }

  lemma ConsideredAre(all: seq<Entity>, limit: Option<int>)
    ensures forall n: nat ::
              Considered(all, limit, n)
              <==> n < |Limited(all, limit)| && Full(Limited(all, limit)[n]) && Limited(all, limit)[n] == all[n]
  {
    hide Full;
  }

  /** The places of the pairs of a name, as places of entities. */
  lemma Through(entities: seq<Entity>, pairs: seq<Pair>, name: string, uuids: seq<string>, outer: seq<nat>,
                inner: seq<nat>)
    returns (at: seq<nat>)
    requires PairedAt(entities, pairs, outer) && NamedAt(pairs, name, uuids, inner)
    ensures Rising(at, |entities|) && |at| == |uuids|
    ensures forall i | 0 <= i < |at| :: entities[at[i]].extId == Some(uuids[i])
    ensures forall n: nat :: n in at <==> n < |entities| && Full(entities[n]) && entities[n].name == Some(name)
  {
    at := seq(|inner|, i requires 0 <= i < |inner| => outer[inner[i]]);
    hide Full;
    forall n: nat
      ensures n in at <==> n < |entities| && Full(entities[n]) && entities[n].name == Some(name)
    {
      if n < |entities| && Full(entities[n]) && entities[n].name == Some(name) {
        var k :| 0 <= k < |outer| && outer[k] == n;
        assert pairs[k].name == name;
        var i :| 0 <= i < |inner| && inner[i] == k;
        assert at[i] == n;
      }
    }
  }

  /** Under a uuid: the name of the last considered entity that has it. */
  lemma UuidIndexHolds(all: seq<Entity>, limit: Option<int>, uuid: string)
    ensures var m := UuidIndex(Pairs(Limited(all, limit)));
      && (uuid in m <==> exists n: nat :: Considered(all, limit, n) && all[n].extId == Some(uuid))
      && forall n: nat | LastConsidered(all, limit, n) && all[n].extId == Some(uuid) ::
        uuid in m && all[n].name == Some(m[uuid])
  {
    var entities := Limited(all, limit);
    var pairs := Pairs(entities);
    var at := PairsAre(entities);
    ConsideredPlaces(all, limit, pairs, at);
    LastName(pairs, uuid);
    var m := UuidIndex(pairs);
    hide Pairs, UuidIndex, Considered, LastConsidered, Limited, PairedAt;
    forall n: nat | Considered(all, limit, n) && all[n].extId == Some(uuid)
      ensures uuid in m && (LastConsidered(all, limit, n) ==> all[n].name == Some(m[uuid]))
    {
      var i :| 0 <= i < |at| && at[i] == n;
      assert pairs[i].uuid == uuid;
      if LastConsidered(all, limit, n) {
        LastPlace(all, limit, pairs, at, i);
      }
    }
    if uuid in m {
      var i :| 0 <= i < |pairs| && pairs[i].uuid == uuid;
      assert Considered(all, limit, at[i]);
    }
  }

  ghost predicate ConsideredAt(all: seq<Entity>, limit: Option<int>, pairs: seq<Pair>, at: seq<nat>) {
    && Rising(at, |all|) && |pairs| == |at|
    && (forall i | 0 <= i < |at| ::
          && Considered(all, limit, at[i])
          && all[at[i]].name == Some(pairs[i].name) && all[at[i]].extId == Some(pairs[i].uuid))
    && (forall n: nat :: Considered(all, limit, n) ==> n in at)
  }

  lemma ConsideredPlaces(all: seq<Entity>, limit: Option<int>, pairs: seq<Pair>, at: seq<nat>)
    requires PairedAt(Limited(all, limit), pairs, at)
    ensures ConsideredAt(all, limit, pairs, at)
  {
    ConsideredAre(all, limit);
    LimitedIs(all, limit);
    hide Full, Considered, Limited;
  }

  lemma LastPlace(all: seq<Entity>, limit: Option<int>, pairs: seq<Pair>, at: seq<nat>, i: nat)
    requires ConsideredAt(all, limit, pairs, at) && i < |at| && LastConsidered(all, limit, at[i])
    ensures NoLater(pairs, i)
  {
    hide Considered;
    forall k | i < k < |pairs| ensures pairs[k].uuid != pairs[i].uuid {
      assert Considered(all, limit, at[k]);
    }
  }

  /** Considered, and no considered entity after it has its uuid. */
  ghost predicate LastConsidered(all: seq<Entity>, limit: Option<int>, n: nat) {
    && Considered(all, limit, n)
    && forall k: nat | k > n && Considered(all, limit, k) :: all[k].extId != all[n].extId
  }

  // ----- a string, or a list of strings

  datatype Slot = One(uuid: string) | Many(uuids: seq<string>)

  function Listed(s: Slot): seq<string> {
    match s case One(u) => [u] case Many(us) => us
  }

  /** Whitespace as Python's `str.split` sees it. */
  predicate Space(c: char) {
    var n := c as int;
    || 0x09 <= n <= 0x0D || 0x1C <= n <= 0x20 || n == 0x85 || n == 0xA0 || n == 0x1680
    || 0x2000 <= n <= 0x200A || n == 0x2028 || n == 0x2029 || n == 0x202F || n == 0x205F || n == 0x3000
  }

  function SkipSpaces(s: string): (rest: string)
    ensures |rest| <= |s|
    ensures rest != "" ==> !Space(rest[0])
    ensures s != "" && !Space(s[0]) ==> rest == s
  {
    if s != "" && Space(s[0]) then SkipSpaces(s[1..]) else s
  }

  function WordLength(s: string): (n: nat)
    ensures n <= |s| && (forall i | 0 <= i < n :: !Space(s[i])) && (n < |s| ==> Space(s[n]))
  {
    if s == "" || Space(s[0]) then 0 else 1 + WordLength(s[1..])
  }

  /** `s.split()` */
  function Split(s: string): seq<string>
    decreases |s|
  {
    var t := SkipSpaces(s);
    if t == "" then [] else [t[..WordLength(t)]] + Split(t[WordLength(t)..])
  }

  /** Not empty and free of whitespace. */
  predicate IsWord(s: string) {
    s != "" && forall c <- s :: !Space(c)
  }

  lemma {:induction false} SplitMakesWords(s: string)
    ensures forall w <- Split(s) :: IsWord(w)
    decreases |s|
  {
    var t := SkipSpaces(s);
    if t != "" {
      SplitMakesWords(t[WordLength(t)..]);
    }
  }

  lemma {:induction false} WholeWord(s: string)
    requires forall c <- s :: !Space(c)
    ensures WordLength(s) == |s|
  {
    if s != "" {
      assert s[0] in s;
      WholeWord(s[1..]);
    }
  }

  /** Splitting gives the string back exactly when it is one word. */
  lemma SplitIsIdentityExactly(s: string)
    ensures Split(s) == [s] <==> IsWord(s)
  {
    SplitMakesWords(s);
    if Split(s) == [s] {
      assert s in Split(s);
    }
    if IsWord(s) {
      assert s[0] in s;
      WholeWord(s);
      assert s[..|s|] == s && s[|s|..] == "";
    }
  }

  /** Splitting takes a string apart at any whitespace; what has none of it is one word. */
  lemma {:induction false} SplitAtSpace(a: string, c: char, b: string)
    requires Space(c)
    ensures Split(a + [c] + b) == Split(a) + Split(b)
    decreases |a|
  {
    hide *;
    var s := a + [c] + b;
    if a == "" {
      assert s == [c] + b && s[1..] == b;
      SkipFirst(s);
      NoWords();
      assert [] + Split(b) == Split(b);
    } else if Space(a[0]) {
      assert s[1..] == a[1..] + [c] + b;
      SkipFirst(s);
      SkipFirst(a);
      SplitAtSpace(a[1..], c, b);
    } else {
      var n := WordLength(a);
      WordStops(a, c, b);
      TakeWord(s);
      TakeWord(a);
      Cut(a, c, b, n);
      SplitAtSpace(a[n..], c, b);
      var rest := Split(a[n..]);
      assert [a[..n]] + (rest + Split(b)) == [a[..n]] + rest + Split(b);
    }
  }

  lemma Cut(a: string, c: char, b: string, n: nat)
    requires n <= |a|
    ensures (a + [c] + b)[..n] == a[..n] && (a + [c] + b)[n..] == a[n..] + [c] + b
  {
  }

  lemma NoWords()
    ensures Split("") == []
  {
  }

  lemma TakeWord(s: string)
    requires s != "" && !Space(s[0])
    ensures 0 < WordLength(s) <= |s| && Split(s) == [s[..WordLength(s)]] + Split(s[WordLength(s)..])
  {
  }

  lemma SkipFirst(s: string)
    requires s != "" && Space(s[0])
    ensures Split(s) == Split(s[1..])
  {
  }

  lemma {:induction false} WordStops(a: string, c: char, b: string)
    requires Space(c)
    ensures WordLength(a + [c] + b) == WordLength(a)
  {
    if a != "" {
      assert (a + [c] + b)[1..] == a[1..] + [c] + b;
      WordStops(a[1..], c, b);
    }
  }

  function Noted(m: map<string, Slot>, p: Pair): map<string, Slot> {
    if p.name !in m then m[p.name := One(p.uuid)]
    else match m[p.name]
      case One(u) => m[p.name := Many(Split(u) + [p.uuid])]
      case Many(us) => m[p.name := Many(us + [p.uuid])]
  }

  function SlotIndex(pairs: seq<Pair>): map<string, Slot> {
    if pairs == [] then map[] else Noted(SlotIndex(pairs[..|pairs|-1]), pairs[|pairs|-1])
  }

  /** `ResourceAPI.get_name_uuid_map` */
  method BuildSlotIndex(entities: seq<Pair>) returns (m: map<string, Slot>)
    ensures m == SlotIndex(entities)
  {
    m := map[];
    if |entities| == 0 {
      return;
    }
    var i := 0;
    while i < |entities|
      invariant i <= |entities| && m == SlotIndex(entities[..i])
    {
      assert entities[..i+1][..i] == entities[..i];
      var name, uuid := entities[i].name, entities[i].uuid;
      if name in m {
        match m[name] {
          case One(u) => m := m[name := Many(Split(u) + [uuid])];
          case Many(us) => m := m[name := Many(us + [uuid])];
        }
      } else {
        m := m[name := One(uuid)];
      }
      i := i + 1;
    }
    assert entities[..i] == entities;
  }

  /** `ResourceAPI.get_uuid_name_map` */
  method BuildResourceUuidIndex(entities: seq<Pair>) returns (m: UuidMap)
    ensures m == UuidIndex(entities)
  {
    m := map[];
    var i := 0;
    while i < |entities|
      invariant i <= |entities| && m == UuidIndex(entities[..i])
    {
      assert entities[..i+1][..i] == entities[..i];
      m := m[entities[i].uuid := entities[i].name];
      i := i + 1;
    }
    assert entities[..i] == entities;
  }

  /** A name's slot: a string when listed once, otherwise the first uuid split, then the others. */
  lemma {:induction false} SlotIs(pairs: seq<Pair>, name: string)
    ensures name in SlotIndex(pairs) <==> UuidsOf(pairs, name) != []
    ensures name in SlotIndex(pairs) ==>
      var uuids := UuidsOf(pairs, name);
      SlotIndex(pairs)[name] == if |uuids| == 1 then One(uuids[0]) else Many(Split(uuids[0]) + uuids[1..])
  {
    if pairs != [] {
      var n := |pairs| - 1;
      SlotIs(pairs[..n], name);
      var before := UuidsOf(pairs[..n], name);
      if pairs[n].name == name {
        if |before| == 1 {
          assert (before + [pairs[n].uuid])[1..] == [pairs[n].uuid];
        } else if |before| > 1 {
          assert (before + [pairs[n].uuid])[1..] == before[1..] + [pairs[n].uuid];
          assert Split(before[0]) + before[1..] + [pairs[n].uuid] == Split(before[0]) + (before[1..] + [pairs[n].uuid]);
        }
      } else {
        assert before + [] == before;
      }
    }
  }

  lemma SameTail<T>(a: seq<T>, b: seq<T>, tail: seq<T>)
    requires a + tail == b + tail
    ensures a == b
  {
    assert a == (a + tail)[..|a|] && b == (b + tail)[..|b|];
  }

  /**
   The string-or-list index holds the same uuids under a name as the list index if and only if the
   name is listed once or its first uuid is one word; it is a string exactly when listed once.
   */
  lemma SlotsAgreeExactly(pairs: seq<Pair>, name: string)
    requires name in NameIndex(pairs)
    ensures name in SlotIndex(pairs) && NameIndex(pairs)[name] != []
    ensures SlotIndex(pairs)[name].One? <==> |NameIndex(pairs)[name]| == 1
    ensures Listed(SlotIndex(pairs)[name]) == NameIndex(pairs)[name]
            <==> |NameIndex(pairs)[name]| == 1 || IsWord(NameIndex(pairs)[name][0])
  {
    NameIndexIs(pairs, name);
    SlotIs(pairs, name);
    var uuids := UuidsOf(pairs, name);
    SplitIsIdentityExactly(uuids[0]);
    assert uuids == [uuids[0]] + uuids[1..];
    if Split(uuids[0]) + uuids[1..] == uuids {
      SameTail(Split(uuids[0]), [uuids[0]], uuids[1..]);
    }
  }

  // ----- the maps a caller asks for: list everything, then index it

  const PAGE_LIMIT := 100
  const OFFSET_LIMIT := 250

  /** `get_name_uuid_map` of the IAM v4 API over all the server holds; None when a call fails. */
  method NameUuidMap(all: seq<Entity>, limit: Option<int>, down: set<nat>) returns (m: Option<NameMap>)
    ensures m.Some? <==> forall c | 0 <= c < PageCalls(|all|, PAGE_LIMIT, None) :: c !in down
    ensures m.Some? ==> m.value == NameIndex(Pairs(Limited(all, limit)))
  {
    var listed, calls := ListPages(all, PAGE_LIMIT, None, down);
    if listed.Failed? {
      return None;
    }
    assert all[..|all|] == all;
    var index := BuildNameIndex(listed.entities, limit);
    m := Some(index);
  }

  /** `get_uuid_name_map` of the IAM v4 API. */
  method UuidNameMap(all: seq<Entity>, limit: Option<int>, down: set<nat>) returns (m: Option<UuidMap>)
    ensures m.Some? <==> forall c | 0 <= c < PageCalls(|all|, PAGE_LIMIT, None) :: c !in down
    ensures m.Some? ==> m.value == UuidIndex(Pairs(Limited(all, limit)))
  {
    var listed, calls := ListPages(all, PAGE_LIMIT, None, down);
    if listed.Failed? {
      return None;
    }
    assert all[..|all|] == all;
    var index := BuildUuidIndex(listed.entities, limit);
    m := Some(index);
  }

  /** What the offset pager fetches of a collection, `length` at a time. */
  ghost function Taken(all: seq<Pair>, length: nat): seq<Pair>
    requires length >= 1 || |all| <= OFFSET_LIMIT
  {
    all[..Retrieved(|all|, OFFSET_LIMIT, length)]
  }

  method ListResources(all: seq<Pair>, length: nat, down: set<nat>) returns (listed: Option<seq<Pair>>)
    requires length >= 1 || |all| <= OFFSET_LIMIT
    ensures listed.Some? <==> forall c | 0 <= c < Needed(|all|, OFFSET_LIMIT, length) :: c !in down
    ensures listed.Some? ==> listed.value == Taken(all, length)
  {
    var result, calls := ListAll(all, OFFSET_LIMIT, length, down);
    if result.Failed? {
      return None;
    }
    OneLeast(|all|, OFFSET_LIMIT, length, calls, Needed(|all|, OFFSET_LIMIT, length));
    listed := Some(result.entities);
  }

  /** `ResourceAPI.get_name_uuid_map` over all the server holds; None when a call fails. */
  method ResourceNameUuidMap(all: seq<Pair>, length: nat, down: set<nat>) returns (m: Option<map<string, Slot>>)
    requires length >= 1 || |all| <= OFFSET_LIMIT
    ensures m.Some? <==> forall c | 0 <= c < Needed(|all|, OFFSET_LIMIT, length) :: c !in down
    ensures m.Some? ==> m.value == SlotIndex(Taken(all, length))
  {
    var listed := ListResources(all, length, down);
    if listed.None? {
      return None;
    }
    var index := BuildSlotIndex(listed.value);
    m := Some(index);
  }

  /** `ResourceAPI.get_uuid_name_map` */
  method ResourceUuidNameMap(all: seq<Pair>, length: nat, down: set<nat>) returns (m: Option<UuidMap>)
    requires length >= 1 || |all| <= OFFSET_LIMIT
    ensures m.Some? <==> forall c | 0 <= c < Needed(|all|, OFFSET_LIMIT, length) :: c !in down
    ensures m.Some? ==> m.value == UuidIndex(Taken(all, length))
  {
    var listed := ListResources(all, length, down);
    if listed.None? {
      return None;
    }
    var index := BuildResourceUuidIndex(listed.value);
    m := Some(index);
  }

  /** Of unique uuids, the map knows exactly those listed before the pager stopped. */
  lemma KnownExactly(all: seq<Pair>, length: nat, i: nat)
    requires (length >= 1 || |all| <= OFFSET_LIMIT) && UniqueUuids(all) && i < |all|
    ensures all[i].uuid in UuidIndex(Taken(all, length)) <==> i < Retrieved(|all|, OFFSET_LIMIT, length)
  {
    var taken, m := Taken(all, length), UuidIndex(Taken(all, length));
    if all[i].uuid in m {
      UuidIndexIs(taken, all[i].uuid, m[all[i].uuid]);
      var k :| 0 <= k < |taken| && taken[k] == Pair(m[all[i].uuid], all[i].uuid);
      assert all[k].uuid == all[i].uuid;
    }
    if i < |taken| {
      UuidIndexIs(taken, all[i].uuid, all[i].name);
      assert taken[i] == all[i];
    }
  }

  /**
   Whatever the server holds, both maps of a listing are those of the whole collection, if and only if
   pages are at least as long as the limit of the pager.
   */
  lemma MapsCompleteExactly(length: nat)
    requires length >= 1
    ensures (forall all | UniqueUuids(all) :: UuidIndex(Taken(all, length)) == UuidIndex(all))
            <==> length >= OFFSET_LIMIT
    ensures (forall all :: SlotIndex(Taken(all, length)) == SlotIndex(all)) <==> length >= OFFSET_LIMIT
  {
    hide UuidIndex, SlotIndex, UniqueUuids, Numbered;
    CompleteExactly(OFFSET_LIMIT, length);
    if length >= OFFSET_LIMIT {
      forall all: seq<Pair> ensures Taken(all, length) == all {
        assert Retrieved(|all|, OFFSET_LIMIT, length) == |all|;
      }
    } else {
      var all := Numbered(OFFSET_LIMIT);
      OneLeast(OFFSET_LIMIT, OFFSET_LIMIT, length, Needed(OFFSET_LIMIT, OFFSET_LIMIT, length), 1);
      NumberedLast(OFFSET_LIMIT, length);
      assert Taken(all, length) == all[..length];
    }
  }

  /** As many entities, of different names and uuids. */
  function Numbered(n: nat): (pairs: seq<Pair>)
    ensures |pairs| == n && forall i | 0 <= i < n :: pairs[i] == Pair(seq(i, _ => 'x'), seq(i, _ => 'x'))
  {
    seq(n, i requires 0 <= i < n => Pair(seq(i, _ => 'x'), seq(i, _ => 'x')))
  }

  lemma NumberedUnique(n: nat)
    ensures var all := Numbered(n);
      UniqueUuids(all) && forall i, k | 0 <= i < n && 0 <= k < n && i != k :: all[i].name != all[k].name
  {
    var all := Numbered(n);
    forall i, k | 0 <= i < n && 0 <= k < n && i != k ensures all[i].uuid != all[k].uuid && all[i].name != all[k].name {
      assert |all[i].uuid| == |all[i].name| == i && |all[k].uuid| == |all[k].name| == k;
    }
  }

  /** The maps of a part lack what the maps of the whole hold. */
  lemma NumberedLast(n: nat, length: nat)
    requires length < n
    ensures var all := Numbered(n);
      UniqueUuids(all) && UuidIndex(all[..length]) != UuidIndex(all) && SlotIndex(all[..length]) != SlotIndex(all)
  {
    var all := Numbered(n);
    NumberedUnique(n);
    hide Numbered, UuidIndex, SlotIndex, UuidsOf;
    var p, part := all[length], all[..length];
    assert p.name == p.uuid && p in all;
    UuidIndexIs(all, p.uuid, p.name);
    UuidIndexIs(part, p.uuid, p.name);
    UuidsAreListed(all, p.name, p.uuid);
    NoneNamed(part, p.name);
    hide Split;
    SlotIs(all, p.name);
    SlotIs(part, p.name);
  }

  lemma {:induction false} NoneNamed(pairs: seq<Pair>, name: string)
    requires forall i | 0 <= i < |pairs| :: pairs[i].name != name
    ensures UuidsOf(pairs, name) == []
  {
    if pairs != [] {
      NoneNamed(pairs[..|pairs|-1], name);
    }
  }
}
