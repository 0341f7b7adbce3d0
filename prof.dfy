/**
 * The context-stack bookkeeping of the profiler in haversine/prof.h, in the
 * build with PROF_ENABLE set. There is one accumulator per profiled site in
 * prof_contexts and a stack of open blocks in prof_context_stack. A block
 * is opened by PROF_BANDWIDTH (push) and closed by prof_end_time_block
 * (pop), which the C runs through a cleanup attribute at the end of the
 * scope; here they are two explicit calls, and the CPU timer reading each
 * takes is passed in as `now`.
 */
module Prof {

  /** PROF_MAX_CONTEXTS */
  const MaxContexts: nat := 4096

  /** PROF_MAX_CONTEXT_STACK */
  const MaxStack: nat := 4096

  /** 2^64: the u64 fields wrap around modulo this. */
  const U64: nat := 0x1_0000_0000_0000_0000

  /** u64 addition. */
  function Add64(a: nat, b: nat): (r: nat)
    ensures r < U64
    ensures a + b < U64 ==> r == a + b
  {
    (a + b) % U64
  }

  /** u64 subtraction: end - start, wrapping when the timer went backwards. */
  function Sub64(a: nat, b: nat): (r: nat)
    requires a < U64 && b < U64
    ensures r < U64
    ensures b <= a ==> r == a - b
    ensures a < b ==> r == a + U64 - b
  {
    (a - b) % U64
  }

  /** struct prof_context: a site's accumulator, and the shape of a stack frame (name is its label). */
  datatype Context = Context(
    start: nat, duration: nat, childDuration: nat, count: nat, bytes: nat,
    index: nat, stackCount: nat, name: string)

  /** The zero-initialised entry of prof_contexts. */
  const Blank := Context(0, 0, 0, 0, 0, 0, 0, "")

  /** The frame PROF_BANDWIDTH pushes; its other fields are zero. */
  function Frame(index: nat, now: nat, name: string, bytes: nat): Context
  {
    Context(now, 0, 0, 0, bytes, index, 0, name)
  }

  /** The profiler's state as values: prof_contexts, and the live part items[0..sp] of the stack. */
  datatype State = State(sites: seq<Context>, stack: seq<Context>)

  /** How many frames of the stack belong to site j. */
  function Occurrences(stack: seq<Context>, j: nat): (n: nat)
    ensures n <= |stack|
  {
    if stack == [] then 0
    else Occurrences(stack[..|stack| - 1], j) + (if stack[|stack| - 1].index == j then 1 else 0)
  }

  predicate U64Fields(c: Context)
  {
    c.start < U64 && c.duration < U64 && c.childDuration < U64 && c.count < U64 && c.bytes < U64
  }

  /**
   * The invariant of the bookkeeping: both tables have their fixed sizes,
   * every frame names a site 1..PROF_MAX_CONTEXTS-1 (the indices
   * __COUNTER__ + 1 below the static assert's bound), each site's
   * stack_count is the number of its frames on the stack, and the u64
   * fields hold u64 values.
   */
  predicate WellFormed(st: State)
  {
    |st.sites| == MaxContexts && |st.stack| <= MaxStack
    && (forall k :: 0 <= k < |st.stack| ==> 1 <= st.stack[k].index < MaxContexts && U64Fields(st.stack[k]))
    && (forall j :: 0 <= j < |st.sites| ==> st.sites[j].stackCount == Occurrences(st.stack, j))
    && (forall j :: 0 <= j < |st.sites| ==> U64Fields(st.sites[j]))
  }

  /** The profiler before any block: all sites zero and the stack empty (sp == -1). */
  function Initial(): State
  {
    State(seq(MaxContexts, _ => Blank), [])
  }

  /** PROF_BANDWIDTH(label, bytes) at site index and time now. */
  function Pushed(st: State, index: nat, name: string, bytes: nat, now: nat): State
    requires index < |st.sites|
  {
    State(st.sites[index := st.sites[index].(stackCount := st.sites[index].stackCount + 1)],
          st.stack + [Frame(index, now, name, bytes)])
  }

  /**
   * prof_end_time_block at time now: pop the top frame and decrement its
   * site's stack_count; only when that reaches zero is the elapsed time
   * charged to the site and to the site of the enclosing frame as child time.
   */
  function Popped(st: State, now: nat): State
    requires |st.stack| > 0 && st.stack[|st.stack| - 1].index < |st.sites|
    requires st.sites[st.stack[|st.stack| - 1].index].stackCount > 0
    requires now < U64 && st.stack[|st.stack| - 1].start < U64
    requires |st.stack| > 1 ==> st.stack[|st.stack| - 2].index < |st.sites|
  {
    var ctx, rest := st.stack[|st.stack| - 1], st.stack[..|st.stack| - 1];
    var d := Sub64(now, ctx.start);
    var site := st.sites[ctx.index].(stackCount := st.sites[ctx.index].stackCount - 1);
    if site.stackCount != 0 then State(st.sites[ctx.index := site], rest)
    else
      var sites := st.sites[ctx.index := site.(
        index := ctx.index, start := ctx.start, name := ctx.name, bytes := ctx.bytes,
        duration := Add64(site.duration, d), count := Add64(site.count, 1))];
      if |rest| == 0 then State(sites, rest)
      else
        var p := rest[|rest| - 1].index;
        State(sites[p := sites[p].(childDuration := Add64(sites[p].childDuration, d))], rest)
  }

  // Properties of push and pop.

  lemma OccurrencesPush(stack: seq<Context>, f: Context, j: nat)
    ensures Occurrences(stack + [f], j) == Occurrences(stack, j) + (if f.index == j then 1 else 0)
  {
    assert (stack + [f])[..|stack|] == stack;
  }

  /** The stack starts empty with every site zero, which is well formed. */
  lemma InitialWellFormed()
    ensures WellFormed(Initial())
  {
  }

  /**
   * A site's stack_count never exceeds the depth of the stack, so the u32
   * counter stays below PROF_MAX_CONTEXT_STACK and cannot wrap around.
   */
  lemma StackCountBounded(st: State, j: nat)
    requires WellFormed(st) && j < |st.sites|
    ensures st.sites[j].stackCount <= |st.stack| <= MaxStack
  {
  }

  /**
   * Push keeps the invariant: the site's stack_count goes up by one together
   * with its number of frames.
   */
  lemma PushedWellFormed(st: State, index: nat, name: string, bytes: nat, now: nat)
    requires WellFormed(st) && 1 <= index < MaxContexts && |st.stack| < MaxStack
    requires bytes < U64 && now < U64
    ensures WellFormed(Pushed(st, index, name, bytes, now))
  {
    var f := Frame(index, now, name, bytes);
    forall j | 0 <= j < MaxContexts
      ensures Occurrences(st.stack + [f], j) == Occurrences(st.stack, j) + (if index == j then 1 else 0)
    {
      OccurrencesPush(st.stack, f, j);
    }
  }

  /**
   * Push grows the stack by one frame that records the site, the start time,
   * the label and the byte count, and raises only that site's stack_count.
   */
  lemma PushRecordsFrame(st: State, index: nat, name: string, bytes: nat, now: nat)
    requires index < |st.sites|
    ensures var r := Pushed(st, index, name, bytes, now);
      |r.stack| == |st.stack| + 1 && r.stack[..|st.stack|] == st.stack
      && r.stack[|st.stack|].index == index && r.stack[|st.stack|].start == now
      && r.stack[|st.stack|].name == name && r.stack[|st.stack|].bytes == bytes
      && |r.sites| == |st.sites| && r.sites[index].stackCount == st.sites[index].stackCount + 1
      && (forall j :: 0 <= j < |st.sites| && j != index ==> r.sites[j] == st.sites[j])
  {
    assert Pushed(st, index, name, bytes, now).stack[..|st.stack|] == st.stack;
  }

  /** On a well-formed state with an open block, pop is defined. */
  lemma PopDefined(st: State)
    requires WellFormed(st) && |st.stack| > 0
    ensures st.stack[|st.stack| - 1].index < |st.sites|
    ensures st.sites[st.stack[|st.stack| - 1].index].stackCount > 0
    ensures st.stack[|st.stack| - 1].start < U64
    ensures |st.stack| > 1 ==> st.stack[|st.stack| - 2].index < |st.sites|
  {
    var n := |st.stack|;
    OccurrencesPush(st.stack[..n - 1], st.stack[n - 1], st.stack[n - 1].index);
    assert st.stack[..n - 1] + [st.stack[n - 1]] == st.stack;
  }

  /** Pop keeps the invariant. */
  lemma PoppedWellFormed(st: State, now: nat)
    requires WellFormed(st) && |st.stack| > 0 && now < U64
    ensures PopDefinedOn(st, now) && WellFormed(Popped(st, now))
  {
    PopDefined(st);
    var n := |st.stack|;
    var top, rest := st.stack[n - 1], st.stack[..n - 1];
    assert rest + [top] == st.stack;
    forall j | 0 <= j < MaxContexts
      ensures Occurrences(rest, j) == Occurrences(st.stack, j) - (if top.index == j then 1 else 0)
    {
      OccurrencesPush(rest, top, j);
    }
    var r := Popped(st, now);
    assert r.stack == rest;
    forall j | 0 <= j < MaxContexts
      ensures r.sites[j].stackCount == Occurrences(rest, j)
    {
    }
  }

  /** The preconditions of Popped, as one predicate. */
  predicate PopDefinedOn(st: State, now: nat)
  {
    |st.stack| > 0 && st.stack[|st.stack| - 1].index < |st.sites|
    && st.sites[st.stack[|st.stack| - 1].index].stackCount > 0
    && now < U64 && st.stack[|st.stack| - 1].start < U64
    && (|st.stack| > 1 ==> st.stack[|st.stack| - 2].index < |st.sites|)
  }

  /**
   * A recursive pop (the site still has frames below) only decrements the
   * site's stack_count: no time is charged to anyone.
   */
  lemma PopRecursing(st: State, now: nat)
    requires WellFormed(st) && |st.stack| > 0 && now < U64
    requires st.sites[st.stack[|st.stack| - 1].index].stackCount > 1
    ensures PopDefinedOn(st, now)
    ensures Popped(st, now).stack == st.stack[..|st.stack| - 1]
    ensures forall j :: 0 <= j < |st.sites| && j != st.stack[|st.stack| - 1].index ==>
      Popped(st, now).sites[j] == st.sites[j]
    ensures Popped(st, now).sites[st.stack[|st.stack| - 1].index]
      == st.sites[st.stack[|st.stack| - 1].index].(stackCount := st.sites[st.stack[|st.stack| - 1].index].stackCount - 1)
  {
    PopDefined(st);
  }

  /**
   * Closing the outermost frame of a site copies the frame's index, start,
   * label and bytes into the site and adds the elapsed time and one call.
   */
  lemma PopClosesSite(st: State, now: nat)
    requires WellFormed(st) && |st.stack| > 0 && now < U64
    requires st.sites[st.stack[|st.stack| - 1].index].stackCount == 1
    ensures PopDefinedOn(st, now)
    ensures var top, old_ := st.stack[|st.stack| - 1], st.sites[st.stack[|st.stack| - 1].index];
      var c := Popped(st, now).sites[top.index];
      c.stackCount == 0 && c.index == top.index && c.start == top.start
      && c.name == top.name && c.bytes == top.bytes
      && c.duration == Add64(old_.duration, Sub64(now, top.start))
      && c.count == Add64(old_.count, 1) && c.childDuration == old_.childDuration
  {
    PopDefined(st);
    if |st.stack| > 1 {
      ParentIsOtherSite(st);
    }
  }

  /**
   * When the frame below the top belongs to the same site, that site has at
   * least two frames, so a closing pop never charges child time to itself.
   */
  lemma ParentIsOtherSite(st: State)
    requires WellFormed(st) && |st.stack| > 1
    requires st.sites[st.stack[|st.stack| - 1].index].stackCount == 1
    ensures st.stack[|st.stack| - 2].index != st.stack[|st.stack| - 1].index
  {
    var n := |st.stack|;
    var j := st.stack[n - 1].index;
    var s1 := st.stack[..n - 1];
    OccurrencesPush(s1, st.stack[n - 1], j);
    assert s1 + [st.stack[n - 1]] == st.stack;
    OccurrencesPush(s1[..n - 2], s1[n - 2], j);
    assert s1[..n - 2] + [s1[n - 2]] == s1;
  }

  /**
   * Closing the outermost frame of a site charges the elapsed time as child
   * time to the site of the enclosing frame, if there is one, and leaves
   * every other site unchanged.
   */
  lemma PopChargesParent(st: State, now: nat)
    requires WellFormed(st) && |st.stack| > 0 && now < U64
    requires st.sites[st.stack[|st.stack| - 1].index].stackCount == 1
    ensures PopDefinedOn(st, now)
    ensures var top := st.stack[|st.stack| - 1];
      var d := Sub64(now, top.start);
      var r := Popped(st, now);
      r.stack == st.stack[..|st.stack| - 1]
      && (|st.stack| > 1 ==>
            var p := st.stack[|st.stack| - 2].index;
            r.sites[p] == st.sites[p].(childDuration := Add64(st.sites[p].childDuration, d)))
      && (forall j :: (0 <= j < |st.sites| && j != top.index
            && (|st.stack| == 1 || j != st.stack[|st.stack| - 2].index)) ==> r.sites[j] == st.sites[j])
  {
    PopDefined(st);
    if |st.stack| > 1 {
      ParentIsOtherSite(st);
    }
  }

  /**
   * A block opened inside an open block of the same site and closed again
   * leaves the profiler exactly as it was, whatever the timer says.
   */
  lemma RecursivePushPopRestores(st: State, index: nat, name: string, bytes: nat, start: nat, now: nat)
    requires WellFormed(st) && 1 <= index < MaxContexts && |st.stack| < MaxStack
    requires bytes < U64 && start < U64 && now < U64
    requires st.sites[index].stackCount > 0
    ensures PopDefinedOn(Pushed(st, index, name, bytes, start), now)
    ensures Popped(Pushed(st, index, name, bytes, start), now) == st
  {
    var q := Pushed(st, index, name, bytes, start);
    PushedWellFormed(st, index, name, bytes, start);
    PopDefined(q);
    assert q.stack[..|q.stack| - 1] == st.stack;
    assert Popped(q, now).sites == st.sites;
  }

  /**
   * A block opened at a site with no open frames and closed again counts one
   * call and end - start of time for the site, and the same time as child
   * time for the enclosing frame's site; nothing else changes.
   */
  lemma OuterPushPopCharges(st: State, index: nat, name: string, bytes: nat, start: nat, now: nat)
    requires WellFormed(st) && 1 <= index < MaxContexts && |st.stack| < MaxStack
    requires bytes < U64 && start < U64 && now < U64
    requires st.sites[index].stackCount == 0
    ensures PopDefinedOn(Pushed(st, index, name, bytes, start), now)
    ensures var r := Popped(Pushed(st, index, name, bytes, start), now);
      var d := Sub64(now, start);
      r.stack == st.stack
      && r.sites[index] == st.sites[index].(start := start, name := name, bytes := bytes, index := index,
                              duration := Add64(st.sites[index].duration, d), count := Add64(st.sites[index].count, 1))
      && (|st.stack| > 0 ==>
            var p := st.stack[|st.stack| - 1].index;
            r.sites[p] == st.sites[p].(childDuration := Add64(st.sites[p].childDuration, d)))
      && (forall j :: (0 <= j < |st.sites| && j != index
            && (|st.stack| == 0 || j != st.stack[|st.stack| - 1].index)) ==> r.sites[j] == st.sites[j])
  {
    var q := Pushed(st, index, name, bytes, start);
    PushedWellFormed(st, index, name, bytes, start);
    PopChargesParent(q, now);
    assert q.stack[..|q.stack| - 1] == st.stack;
    if |st.stack| > 0 {
      assert q.stack[|q.stack| - 2] == st.stack[|st.stack| - 1];
    }
  }

  /**
   * prof_contexts and prof_context_stack as the two global arrays the C
   * updates in place; sp is -1 when no block is open.
   */
  class Profiler {
    const contexts: array<Context>
    const items: array<Context>
    var sp: int

    /** The bookkeeping as values: all of prof_contexts and items[0..sp]. */
    function Snapshot(): State
      reads this, contexts, items
      requires -1 <= sp < items.Length
    {
      State(contexts[..], items[..sp + 1])
    }

    predicate Valid()
      reads this, contexts, items
    {
      contexts.Length == MaxContexts && items.Length == MaxStack && contexts != items
      && -1 <= sp < MaxStack && WellFormed(Snapshot())
    }

    /** The zero-initialised globals: every site blank and sp == -1. */
    constructor ()
      ensures Valid() && Snapshot() == Initial()
      ensures fresh(contexts) && fresh(items)
    {
      contexts := new Context[MaxContexts](_ => Blank);
      items := new Context[MaxStack](_ => Blank);
      sp := -1;
      new;
      assert contexts[..] == Initial().sites;
      InitialWellFormed();
    }

    /** PROF_BANDWIDTH(name, bytes) at site index, reading the timer as now. */
    method Begin(index: nat, name: string, bytes: nat, now: nat)
      requires Valid() && 1 <= index < MaxContexts && sp + 1 < MaxStack
      requires bytes < U64 && now < U64
      modifies this, contexts, items
      ensures Valid() && sp == old(sp) + 1
      ensures Snapshot() == Pushed(old(Snapshot()), index, name, bytes, now)
    {
      ghost var before := Snapshot();
      PushedWellFormed(before, index, name, bytes, now);
      StackCountBounded(before, index);
      contexts[index] := contexts[index].(stackCount := contexts[index].stackCount + 1);
      sp := sp + 1;
      items[sp] := Frame(index, now, name, bytes);
      assert items[..sp + 1] == before.stack + [Frame(index, now, name, bytes)];
    }

    /** prof_end_time_block, reading the timer as now. */
    method End(now: nat)
      requires Valid() && sp >= 0 && now < U64
      modifies this, contexts
      ensures Valid() && sp == old(sp) - 1
      ensures Snapshot() == Popped(old(Snapshot()), now)
    {
      ghost var before := Snapshot();
      PoppedWellFormed(before, now);
      ghost var rest := before.stack[..|before.stack| - 1];
      var ctx := items[sp];
      assert items[..sp] == rest;
      sp := sp - 1;
      var d := Sub64(now, ctx.start);
      var site := contexts[ctx.index].(stackCount := contexts[ctx.index].stackCount - 1);
      contexts[ctx.index] := site;
      var isRecursing := site.stackCount != 0;
      if isRecursing {
        assert contexts[..] == before.sites[ctx.index := site];
      } else {
        site := site.(index := ctx.index, start := ctx.start, name := ctx.name, bytes := ctx.bytes);
        site := site.(duration := Add64(site.duration, d), count := Add64(site.count, 1));
        contexts[ctx.index] := site;
        ghost var sites := before.sites[ctx.index := site];
        assert contexts[..] == sites;
        if sp > -1 {
          var p := items[sp].index;
          assert p == rest[|rest| - 1].index;
          contexts[p] := contexts[p].(childDuration := Add64(contexts[p].childDuration, d));
          assert contexts[..] == sites[p := sites[p].(childDuration := Add64(sites[p].childDuration, d))];
        }
      }
      assert Snapshot() == Popped(before, now);
    }
  }
}
