/** Singleton classes: any number of threads call any number of classes under one lock. */
module Singleton {
  import opened Options

  /** Where a call of a singleton class stands. */
  datatype Frame =
    | Waiting(cls: string)
    | Checking(cls: string)
    | Constructing(cls: string)
    | Storing(cls: string, instance: nat)
    | Leaving(cls: string)
    | Reading(cls: string)

  /**
   A thread's calls form a stack, since a constructor may itself call singleton classes. An instance
   is named by its place in `built`, the classes constructed successfully, in order. `returned` holds
   what calls gave back; `missed` says that a read outside the lock found no entry.
   */
  datatype State = State(
    instances: map<string, nat>, holder: Option<nat>, stacks: map<nat, seq<Frame>>,
    built: seq<string>, returned: seq<(string, nat)>, missed: bool)

  datatype Event =
    | Call(thread: nat, cls: string)
    | Acquire(thread: nat)
    | Check(thread: nat)
    | Construct(thread: nat)
    | Raise(thread: nat)
    | Store(thread: nat)
    | Release(thread: nat)
    | Return(thread: nat)

  const Initial := State(map[], None, map[], [], [], false)

  function StackOf(s: State, t: nat): seq<Frame> {
    if t in s.stacks then s.stacks[t] else []
  }

  function WithTop(s: State, t: nat, rest: seq<Frame>, frame: Frame): State {
    s.(stacks := s.stacks[t := rest + [frame]])
  }

  /** One atomic step of one thread; an event that is not enabled changes nothing. */
  function Step(s: State, e: Event): State {
    var t := e.thread;
    var stack := StackOf(s, t);
    if e.Call? then
      if stack == [] || stack[|stack|-1].Constructing? then WithTop(s, t, stack, Waiting(e.cls)) else s
    else if stack == [] then s
    else
      var top, rest := stack[|stack|-1], stack[..|stack|-1];
      if e.Acquire? && top.Waiting? && s.holder.None? then
        WithTop(s, t, rest, Checking(top.cls)).(holder := Some(t))
      else if e.Check? && top.Checking? then
        WithTop(s, t, rest, if top.cls in s.instances then Leaving(top.cls) else Constructing(top.cls))
      else if e.Construct? && top.Constructing? then
        WithTop(s, t, rest, Storing(top.cls, |s.built|)).(built := s.built + [top.cls])
      else if e.Raise? && top.Constructing? then
        s.(stacks := s.stacks[t := rest], holder := None)
      else if e.Store? && top.Storing? then
        WithTop(s, t, rest, Leaving(top.cls)).(instances := s.instances[top.cls := top.instance])
      else if e.Release? && top.Leaving? then
        WithTop(s, t, rest, Reading(top.cls)).(holder := None)
      else if e.Return? && top.Reading? then
        if top.cls in s.instances then
          s.(stacks := s.stacks[t := rest], returned := s.returned + [(top.cls, s.instances[top.cls])])
        else s.(stacks := s.stacks[t := rest], missed := true)
      else s
  }

  function Run(s: State, events: seq<Event>): State {
    if events == [] then s else Step(Run(s, events[..|events|-1]), events[|events|-1])
  }

  // ----- what every interleaving keeps

  predicate InLock(f: Frame) {
    f.Checking? || f.Constructing? || f.Storing? || f.Leaving?
  }

  /** The thread holding the lock has one call inside it, perhaps a second one waiting above; the others none. */
  predicate StackSound(s: State, t: nat) {
    var k := StackOf(s, t);
    if s.holder == Some(t) then
      (|k| == 1 && InLock(k[0])) || (|k| == 2 && k[0].Constructing? && k[1].Waiting?)
    else k == [] || (|k| == 1 && (k[0].Waiting? || k[0].Reading?))
  }

  predicate FrameSound(s: State, f: Frame) {
    match f
    case Constructing(c) => c !in s.instances && c !in s.built
    case Storing(c, o) => c !in s.instances && o == |s.built| - 1 && s.built[o] == c
    case Leaving(c) => c in s.instances
    case Reading(c) => c in s.instances
    case _ => true
  }

  ghost predicate ThreadSound(s: State, t: nat) {
    StackSound(s, t) && forall f | f in StackOf(s, t) :: FrameSound(s, f)
  }

  predicate BeingStored(s: State, i: nat) {
    && i < |s.built| && s.holder.Some? && StackOf(s, s.holder.value) == [Storing(s.built[i], i)]
  }

  predicate Stored(s: State, i: nat)
    requires i < |s.built|
  {
    s.built[i] in s.instances && s.instances[s.built[i]] == i
  }

  predicate BuiltSound(s: State) {
    && (forall i | 0 <= i < |s.built| :: Stored(s, i) || BeingStored(s, i))
    && (forall i, k | 0 <= i < k < |s.built| :: s.built[i] != s.built[k])
    && (forall c | c in s.instances :: s.instances[c] < |s.built| && s.built[s.instances[c]] == c)
  }

  predicate ReturnedSound(s: State) {
    !s.missed && forall r | r in s.returned :: r.0 in s.instances && s.instances[r.0] == r.1
  }

  ghost predicate Sound(s: State) {
    (forall t: nat :: ThreadSound(s, t)) && BuiltSound(s) && ReturnedSound(s)
  }

  /** A thread's step is taken by its top frame; a thread inside the lock is the one holding it. */
  lemma TopSound(s: State, t: nat)
    requires Sound(s) && StackOf(s, t) != []
    ensures var k := StackOf(s, t);
      var top := k[|k|-1];
      && StackSound(s, t) && FrameSound(s, top) && FrameSound(s, k[0])
      && (InLock(top) ==> s.holder == Some(t) && k == [top])
      && (top.Reading? ==> s.holder != Some(t) && k == [top])
  {
    assert ThreadSound(s, t);
  }

  lemma NonePending(s: State, cls: string)
    requires BuiltSound(s) && cls !in s.instances
    requires s.holder.Some? && forall i :: StackOf(s, s.holder.value) != [Storing(cls, i)]
    ensures cls !in s.built
  {
    forall i | 0 <= i < |s.built| ensures s.built[i] != cls {
      assert Stored(s, i) || BeingStored(s, i);
    }
  }

  lemma OthersSound(s: State, e: Event, u: nat)
    requires Sound(s) && u != e.thread
    ensures ThreadSound(Step(s, e), u)
  {
    assert ThreadSound(s, u);
    if StackOf(s, e.thread) != [] {
      TopSound(s, e.thread);
    }
    hide BuiltSound, ReturnedSound, Sound;
    var after := Step(s, e);
    assert StackOf(after, u) == StackOf(s, u);
  }

  lemma OwnSound(s: State, e: Event)
    requires Sound(s)
    ensures ThreadSound(Step(s, e), e.thread)
  {
    var t := e.thread;
    var stack := StackOf(s, t);
    assert ThreadSound(s, t);
    if stack != [] {
      TopSound(s, t);
      if e.Check? && stack[|stack|-1].Checking? && stack[0].cls !in s.instances {
        NonePending(s, stack[0].cls);
      }
    }
    hide BuiltSound, ReturnedSound, Sound;
  }

  lemma BuiltStaysSound(s: State, e: Event)
    requires Sound(s)
    ensures BuiltSound(Step(s, e))
  {
    var stack := StackOf(s, e.thread);
    if stack != [] {
      TopSound(s, e.thread);
    }
    if e.Construct? && stack != [] && stack[|stack|-1].Constructing? {
      OneBuilt(s, e, stack[|stack|-1].cls);
    } else if e.Store? && stack != [] && stack[|stack|-1].Storing? {
      OneStored(s, e, stack[|stack|-1]);
    } else {
      NothingBuilt(s, e);
    }
  }

  /** A step that neither constructs nor stores. */
  lemma NothingBuilt(s: State, e: Event)
    requires Sound(s) && Step(s, e).built == s.built && Step(s, e).instances == s.instances
    ensures BuiltSound(Step(s, e))
  {
    if s.holder.Some? {
      assert ThreadSound(s, s.holder.value);
    }
    if StackOf(s, e.thread) != [] {
      TopSound(s, e.thread);
    }
    hide ReturnedSound, Sound, ThreadSound;
    var after := Step(s, e);
    forall i | 0 <= i < |after.built| ensures Stored(after, i) || BeingStored(after, i) {
      assert Stored(s, i) || BeingStored(s, i);
    }
  }

  lemma OneBuilt(s: State, e: Event, cls: string)
    requires Sound(s) && e.Construct? && StackOf(s, e.thread) == [Constructing(cls)]
    requires s.holder == Some(e.thread) && FrameSound(s, Constructing(cls))
    ensures BuiltSound(Step(s, e))
  {
    hide ReturnedSound, ThreadSound;
    var after := Step(s, e);
    assert BeingStored(after, |s.built|);
    forall i | 0 <= i < |s.built| ensures Stored(after, i) {
      assert Stored(s, i) || BeingStored(s, i);
    }
  }

  lemma OneStored(s: State, e: Event, f: Frame)
    requires Sound(s) && e.Store? && f.Storing? && StackOf(s, e.thread) == [f]
    requires s.holder == Some(e.thread) && FrameSound(s, f)
    ensures BuiltSound(Step(s, e))
  {
    hide ReturnedSound, ThreadSound;
    var after := Step(s, e);
    forall i | 0 <= i < |s.built| ensures Stored(after, i) {
      assert Stored(s, i) || BeingStored(s, i);
    }
  }

  lemma ReturnsStaySound(s: State, e: Event)
    requires Sound(s)
    ensures ReturnedSound(Step(s, e))
  {
    if StackOf(s, e.thread) != [] {
      TopSound(s, e.thread);
    }
    hide BuiltSound, Sound, StackOf;
  }

  lemma StepSound(s: State, e: Event)
    requires Sound(s)
    ensures Sound(Step(s, e))
  {
    BuiltStaysSound(s, e);
    ReturnsStaySound(s, e);
    forall u: nat ensures ThreadSound(Step(s, e), u) {
      if u == e.thread {
        OwnSound(s, e);
      } else {
        OthersSound(s, e, u);
      }
    }
    hide Step, BuiltSound, ReturnedSound, ThreadSound;
  }

  lemma {:induction false} RunSound(events: seq<Event>)
    ensures Sound(Run(Initial, events))
  {
    if events != [] {
      RunSound(events[..|events|-1]);
      StepSound(Run(Initial, events[..|events|-1]), events[|events|-1]);
    }
  }

  /**
   In every interleaving: no class is constructed successfully twice, all calls of a class give back
   the one instance constructed for it, and the read outside the lock finds its entry.
   */
  lemma OneInstance(events: seq<Event>)
    ensures var s := Run(Initial, events);
      && (forall i, k | 0 <= i < k < |s.built| :: s.built[i] != s.built[k])
      && (forall r | r in s.returned :: r.1 < |s.built| && s.built[r.1] == r.0)
      && (forall r, q | r in s.returned && q in s.returned && r.0 == q.0 :: r.1 == q.1)
      && !s.missed
  {
    RunSound(events);
  }

  /** An entry, once there, is never replaced, and no class is constructed after its entry is there. */
  lemma {:induction false} EntryStays(s: State, events: seq<Event>, cls: string)
    requires Sound(s) && cls in s.instances
    ensures var later := Run(s, events);
      Sound(later) && cls in later.instances && later.instances[cls] == s.instances[cls]
  {
    if events != [] {
      var before := Run(s, events[..|events|-1]);
      EntryStays(s, events[..|events|-1], cls);
      StepSound(before, events[|events|-1]);
      if StackOf(before, events[|events|-1].thread) != [] {
        TopSound(before, events[|events|-1].thread);
      }
      hide Sound, StackOf;
    }
  }

  // ----- when the lock is never free again

  /** The constructor running under the lock has called a singleton class itself. */
  predicate Nested(s: State) {
    s.holder.Some? && |StackOf(s, s.holder.value)| == 2
  }

  /** Then nothing is constructed or stored any more and the lock is never free. */
  lemma {:induction false} NestedForever(s: State, events: seq<Event>)
    requires Sound(s) && Nested(s)
    ensures var later := Run(s, events);
      && Sound(later) && Nested(later) && later.holder == s.holder
      && later.instances == s.instances && later.built == s.built
      && StackOf(later, s.holder.value) == StackOf(s, s.holder.value)
  {
    if events != [] {
      var e := events[|events|-1];
      var before := Run(s, events[..|events|-1]);
      NestedForever(s, events[..|events|-1]);
      StepSound(before, e);
      assert ThreadSound(before, s.holder.value);
      if StackOf(before, e.thread) != [] {
        TopSound(before, e.thread);
      }
      hide Sound;
    }
  }

  /** The steps that take the holder of the lock out of it. */
  function WayOut(s: State): seq<Event>
    requires s.holder.Some?
  {
    var t := s.holder.value;
    var stack := StackOf(s, t);
    if |stack| != 1 then []
    else match stack[0]
      case Checking(c) => if c in s.instances then [Check(t), Release(t)]
          else [Check(t), Construct(t), Store(t), Release(t)]
      case Constructing(_) => [Construct(t), Store(t), Release(t)]
      case Storing(_, _) => [Store(t), Release(t)]
      case Leaving(_) => [Release(t)]
      case _ => []
  }

  lemma {:induction false} RunJoin(s: State, a: seq<Event>, b: seq<Event>)
    ensures Run(s, a + b) == Run(Run(s, a), b)
  {
    if b == [] {
      assert a + b == a;
    } else {
      assert (a + b)[..|a + b|-1] == a + b[..|b|-1];
      RunJoin(s, a, b[..|b|-1]);
    }
  }

  lemma RunFirst(s: State, events: seq<Event>)
    requires events != []
    ensures Run(s, events) == Run(Step(s, events[0]), events[1..])
  {
    RunJoin(s, events[..1], events[1..]);
    assert events[..1] + events[1..] == events;
    assert events[..1][..0] == [];
    assert Run(s, events[..1]) == Step(Run(s, events[..1][..0]), events[0]);
  }

  lemma WayOutStep(s: State)
    requires s.holder.Some? && |StackOf(s, s.holder.value)| == 1 && InLock(StackOf(s, s.holder.value)[0])
    ensures WayOut(s) != []
    ensures var next := Step(s, WayOut(s)[0]);
      if |WayOut(s)| == 1 then next.holder.None?
      else next.holder == s.holder && !Nested(next) && WayOut(next) == WayOut(s)[1..]
  {
  }

  /** One thread's steps from its only call to the release of the lock. */
  lemma {:induction false} WayOutFrees(s: State)
    requires Sound(s) && s.holder.Some? && !Nested(s)
    ensures Run(s, WayOut(s)).holder.None?
    decreases |WayOut(s)|
  {
    var t := s.holder.value;
    TopSound(s, t) by {
      assert ThreadSound(s, t);
    }
    var events := WayOut(s);
    var next := Step(s, events[0]);
    WayOutStep(s);
    RunFirst(s, events);
    hide Step;
    if |events| > 1 {
      StepSound(s, events[0]);
      WayOutFrees(next);
    } else {
      assert Run(next, events[1..]) == next;
    }
  }

  /** The lock can become free exactly when no constructor under it has called a singleton class. */
  lemma FreeExactly(s: State)
    requires Sound(s)
    ensures (exists events :: Run(s, events).holder.None?) <==> !Nested(s)
  {
    if Nested(s) {
      forall events ensures Run(s, events).holder.Some? {
        NestedForever(s, events);
      }
    } else if s.holder.None? {
      assert Run(s, []).holder.None?;
    } else {
      WayOutFrees(s);
    }
  }

  /** Such a call hangs, whatever class it is for: a constructor that calls a singleton class is never done. */
  lemma {:induction false} NestedCallHangs(s: State, t: nat, cls: string, events: seq<Event>)
    requires Sound(s) && s.holder == Some(t) && |StackOf(s, t)| == 1 && StackOf(s, t)[0].Constructing?
    ensures var later := Run(Step(s, Call(t, cls)), events);
      && later.holder == Some(t) && later.instances == s.instances
      && StackOf(later, t) == [StackOf(s, t)[0], Waiting(cls)]
  {
    StepSound(s, Call(t, cls));
    NestedForever(Step(s, Call(t, cls)), events);
  }

  // ----- one call, among others

  /** Steps of other threads. */
  predicate Foreign(events: seq<Event>, t: nat) {
    forall i | 0 <= i < |events| :: events[i].thread != t
  }

  /** What other threads do meanwhile neither moves a thread nor takes an entry away. */
  lemma {:induction false} Undisturbed(s: State, events: seq<Event>, t: nat)
    requires Sound(s) && Foreign(events, t)
    ensures var later := Run(s, events); Sound(later) && StackOf(later, t) == StackOf(s, t) && Keeps(s, later)
  {
    if events != [] {
      var n := |events| - 1;
      Undisturbed(s, events[..n], t);
      OneStepKeeps(Run(s, events[..n]), events[n]);
      OtherStack(Run(s, events[..n]), events[n], t);
      hide Step, Sound, StackOf;
    }
  }

  predicate Keeps(s: State, later: State) {
    forall c | c in s.instances :: c in later.instances && later.instances[c] == s.instances[c]
  }

  lemma OtherStack(s: State, e: Event, t: nat)
    requires e.thread != t
    ensures StackOf(Step(s, e), t) == StackOf(s, t)
  {
  }

  lemma OneStepKeeps(s: State, e: Event)
    requires Sound(s)
    ensures Sound(Step(s, e)) && Keeps(s, Step(s, e))
  {
    StepSound(s, e);
    hide Step, Sound;
    forall c | c in s.instances ensures c in Step(s, e).instances && Step(s, e).instances[c] == s.instances[c] {
      EntryStays(s, [e], c);
      RunOne(s, e);
    }
  }

  lemma RunOne(s: State, e: Event)
    ensures Run(s, [e]) == Step(s, e)
  {
    assert [e][..0] == [];
  }

  /** Where a step of its own takes a thread with one call, and with what effect on that class. */
  lemma OwnStep(s: State, e: Event, f: Frame)
    requires Sound(s) && StackOf(s, e.thread) == [f]
    ensures Sound(Step(s, e)) && Keeps(s, Step(s, e))
    ensures var now := StackOf(Step(s, e), e.thread);
      && (e.Acquire? && f.Waiting? && s.holder.None? ==> now == [Checking(f.cls)])
      && (e.Check? && f.Checking? ==> now == [if f.cls in s.instances then Leaving(f.cls) else Constructing(f.cls)])
      && (e.Construct? && f.Constructing? ==> now == [Storing(f.cls, |s.built|)])
      && (e.Raise? && f.Constructing? ==> now == [])
      && (e.Store? && f.Storing? ==> now == [Leaving(f.cls)])
      && (e.Release? && f.Leaving? ==> now == [Reading(f.cls)])
      && (e.Return? && f.Reading? ==> now == [])
  {
    OneStepKeeps(s, e);
    hide Sound, Keeps;
  }

  lemma ReadsEntry(s: State, t: nat, cls: string)
    requires Sound(s) && StackOf(s, t) == [Reading(cls)]
    ensures cls in s.instances && s.instances[cls] < |s.built| && s.built[s.instances[cls]] == cls
  {
    assert ThreadSound(s, t) && StackOf(s, t)[0] in StackOf(s, t);
    assert FrameSound(s, Reading(cls));
  }

  lemma Entered(s: State, t: nat, cls: string)
    requires Sound(s) && StackOf(s, t) == []
    ensures Sound(Step(s, Call(t, cls))) && Keeps(s, Step(s, Call(t, cls)))
            && StackOf(Step(s, Call(t, cls)), t) == [Waiting(cls)]
  {
    OneStepKeeps(s, Call(t, cls));
    hide Sound, Keeps;
  }

  /** The class and its `__call__`; `state` is what all threads share. */
  class Meta {
    var state: State

    constructor ()
      ensures state == Initial
    {
      state := Initial;
    }

    /**
     `__call__` as thread `t` runs it: between its steps the other threads take those of `others`, and
     it waits until they have left the lock. It gives back the instance that is stored for the class,
     the one that was there before if there was one; it ends without one only if the constructor raises.
     */
    method Invoke(t: nat, cls: string, raises: bool, others: seq<seq<Event>>) returns (result: Option<nat>)
      requires Sound(state) && StackOf(state, t) == []
      requires |others| == 5 && forall i | 0 <= i < |others| :: Foreign(others[i], t)
      requires Run(Step(state, Call(t, cls)), others[0]).holder.None?
      modifies this
      ensures Sound(state) && StackOf(state, t) == [] && Keeps(old(state), state)
      ensures result.Some? ==> cls in state.instances && result == Some(state.instances[cls])
                               && result.value < |state.built| && state.built[result.value] == cls
      ensures result.None? ==> raises && cls !in old(state).instances
    {
      hide Sound, Step, Run, StackOf, Foreign;
      Entered(state, t, cls);
      state := Step(state, Call(t, cls));
      Undisturbed(state, others[0], t);
      state := Run(state, others[0]);
      OwnStep(state, Acquire(t), Waiting(cls));
      state := Step(state, Acquire(t));
      Undisturbed(state, others[1], t);
      state := Run(state, others[1]);
      OwnStep(state, Check(t), Checking(cls));
      var found := cls in state.instances;
      state := Step(state, Check(t));
      if !found {
        if raises {
          OwnStep(state, Raise(t), Constructing(cls));
          state := Step(state, Raise(t));
          return None;
        }
        ghost var instance := |state.built|;
        OwnStep(state, Construct(t), Constructing(cls));
        state := Step(state, Construct(t));
        Undisturbed(state, others[2], t);
        state := Run(state, others[2]);
        OwnStep(state, Store(t), Storing(cls, instance));
        state := Step(state, Store(t));
      }
      Undisturbed(state, others[3], t);
      state := Run(state, others[3]);
      OwnStep(state, Release(t), Leaving(cls));
      state := Step(state, Release(t));
      Undisturbed(state, others[4], t);
      state := Run(state, others[4]);
      ReadsEntry(state, t, cls);
      result := Some(state.instances[cls]);
      OwnStep(state, Return(t), Reading(cls));
      state := Step(state, Return(t));
      BuiltStays(state, result.value, cls);
    }
  }

  lemma BuiltStays(s: State, i: nat, cls: string)
    requires Sound(s) && cls in s.instances && s.instances[cls] == i
    ensures i < |s.built| && s.built[i] == cls
  {
  }

  // ----- one call alone

  function Alone(instances: map<string, nat>, built: seq<string>, cls: string, raises: bool): (map<string, nat>,
        seq<string>, Option<nat>) {
    if cls in instances then (instances, built, Some(instances[cls]))
    else if raises then (instances, built, None)
    else (instances[cls := |built|], built + [cls], Some(|built|))
  }

  /** The steps of a call that nothing interrupts. */
  function AloneSteps(s: State, t: nat, cls: string, raises: bool): seq<Event> {
    [Call(t, cls), Acquire(t), Check(t)] +
    (if cls in s.instances then [Release(t), Return(t)]
     else if raises then [Raise(t)]
     else [Construct(t), Store(t), Release(t), Return(t)])
  }

  lemma RunTwo(s: State, a: Event, b: Event)
    ensures Run(s, [a, b]) == Step(Step(s, a), b)
  {
    RunFirst(s, [a, b]);
    RunOne(Step(s, a), b);
    hide Run, Step;
  }

  lemma RunThree(s: State, a: Event, b: Event, c: Event)
    ensures Run(s, [a, b, c]) == Step(Step(Step(s, a), b), c)
  {
    RunFirst(s, [a, b, c]);
    RunTwo(Step(s, a), b, c);
    hide Run, Step;
  }

  /** The first three steps of a call that is not interrupted. */
  lemma AloneChecks(s: State, t: nat, cls: string)
    requires s.holder.None? && StackOf(s, t) == []
    ensures var checked := Run(s, [Call(t, cls), Acquire(t), Check(t)]);
      && checked == s.(holder := Some(t), stacks := checked.stacks)
      && StackOf(checked, t) == [if cls in s.instances then Leaving(cls) else Constructing(cls)]
  {
    RunThree(s, Call(t, cls), Acquire(t), Check(t));
    hide Run;
  }

  lemma AloneLeaves(s: State, t: nat, cls: string)
    requires StackOf(s, t) == [Leaving(cls)] && cls in s.instances
    ensures var later := Run(s, [Release(t), Return(t)]);
      && later == s.(holder := None, stacks := later.stacks, returned := s.returned + [(cls, s.instances[cls])])
      && StackOf(later, t) == []
  {
    RunTwo(s, Release(t), Return(t));
    hide Run;
  }

  lemma AloneBuilds(s: State, t: nat, cls: string)
    requires StackOf(s, t) == [Constructing(cls)]
    ensures var later := Run(s, [Construct(t), Store(t)]);
      && later == s.(stacks := later.stacks, built := s.built + [cls], instances := s.instances[cls := |s.built|])
      && StackOf(later, t) == [Leaving(cls)]
  {
    RunTwo(s, Construct(t), Store(t));
    hide Run;
  }

  /** A call that starts with the lock free and is not interrupted does what `Alone` says. */
  lemma AloneIsRun(s: State, t: nat, cls: string, raises: bool)
    requires s.holder.None? && StackOf(s, t) == []
    ensures var later := Run(s, AloneSteps(s, t, cls, raises));
      var (instances, built, result) := Alone(s.instances, s.built, cls, raises);
      && later.instances == instances && later.built == built
      && later.returned == (if result.None? then s.returned else s.returned + [(cls, result.value)])
      && later.holder.None? && StackOf(later, t) == []
  {
    var begin := [Call(t, cls), Acquire(t), Check(t)];
    var end := AloneSteps(s, t, cls, raises)[3..];
    assert AloneSteps(s, t, cls, raises) == begin + end;
    RunJoin(s, begin, end);
    AloneChecks(s, t, cls);
    var checked := Run(s, begin);
    if cls in s.instances {
      hide Run, StackOf, Step;
      AloneLeaves(checked, t, cls);
    } else if raises {
      RunFirst(checked, [Raise(t)]);
    } else {
      hide Run, StackOf, Step;
      assert end == [Construct(t), Store(t)] + [Release(t), Return(t)];
      RunJoin(checked, [Construct(t), Store(t)], [Release(t), Return(t)]);
      AloneBuilds(checked, t, cls);
      AloneLeaves(Run(checked, [Construct(t), Store(t)]), t, cls);
    }
  }
}
