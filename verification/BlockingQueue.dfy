/** The blocking multi-producer multi-consumer queue of common/queue.h.

    Every operation runs under one mutex, so it is one atomic step up to the point where it
    returns, throws or waits.  A call that waits is therefore split in two steps: the call, which
    parks the thread on a condition variable, and the wake-up, which re-tests the loop guard after
    the thread has been notified (or woken spuriously) and holds the mutex again. */
module BlockingQueue {
  import opened Wrappers

  type Thread = nat

  /** A condition variable: the threads asleep on it, and those notified that have not yet run. */
  datatype CondVar = CondVar(asleep: set<Thread>, notified: set<Thread>) {
    function Wait(t: Thread): CondVar { CondVar(asleep + {t}, notified - {t}) }
    function NotifyAll(): CondVar { CondVar({}, notified + asleep) }
    function WakeOne(t: Thread): CondVar { CondVar(asleep - {t}, notified + {t}) }
    function Leave(t: Thread): CondVar { CondVar(asleep, notified - {t}) }
    function Inside(): set<Thread> { asleep + notified }
  }

  /** `carried` holds the argument of every thread that waits inside push. */
  datatype State<T> = State(
    items: seq<T>, capacity: nat, closed: bool,
    notFull: CondVar, notEmpty: CondVar, carried: map<Thread, T>)

  datatype Event<T> =
    | TryPush(val: T) | TryPop
    | Push(thread: Thread, val: T) | PushWoken(thread: Thread)
    | Pop(thread: Thread) | PopWoken(thread: Thread)
    | Close | Spurious(thread: Thread)

  datatype Outcome<T> = Stored(val: T) | Taken(val: T) | Refused | Waiting | ClosedQueue | AlreadyClosed | Done

  function Empty<T>(capacity: nat): State<T> {
    State([], capacity, false, CondVar({}, {}), CondVar({}, {}), map[])
  }

  /** A thread calls push or pop only when it is not already inside one, and resumes only when woken. */
  predicate Enabled<T>(s: State<T>, e: Event<T>) {
    match e
    case Push(t, _) => t !in s.notFull.Inside() + s.notEmpty.Inside()
    case Pop(t) => t !in s.notFull.Inside() + s.notEmpty.Inside()
    case PushWoken(t) => t in s.notFull.notified && t in s.carried
    case PopWoken(t) => t in s.notEmpty.notified
    case Spurious(t) => t in s.notFull.asleep + s.notEmpty.asleep
    case _ => true
  }

  /** What storing a value does, whoever stores it. */
  function Store<T>(s: State<T>, val: T): State<T> {
    s.(items := s.items + [val], notEmpty := if s.items == [] then s.notEmpty.NotifyAll() else s.notEmpty)
  }

  /** What taking the oldest value does, whoever takes it. */
  function Take<T>(s: State<T>): State<T>
    requires s.items != []
  {
    s.(items := s.items[1..], notFull := if |s.items| == s.capacity then s.notFull.NotifyAll() else s.notFull)
  }

  function Step<T>(s: State<T>, e: Event<T>): (r: (State<T>, Outcome<T>))
    requires Enabled(s, e)
  {
    match e
    case TryPush(v) =>
      if s.closed then (s, ClosedQueue)
      else if |s.items| == s.capacity then (s, Refused)
      else (Store(s, v), Stored(v))
    case TryPop =>
      if s.items != [] then (Take(s), Taken(s.items[0]))
      else (s, if s.closed then ClosedQueue else Refused)
    case Push(t, v) =>
      if s.closed then (s, ClosedQueue)
      else if |s.items| == s.capacity then (s.(notFull := s.notFull.Wait(t), carried := s.carried[t := v]), Waiting)
      else (Store(s, v), Stored(v))
    case PushWoken(t) =>
      if |s.items| == s.capacity then (s.(notFull := s.notFull.Wait(t)), Waiting)
      else (Store(s, s.carried[t]).(notFull := s.notFull.Leave(t), carried := s.carried - {t}), Stored(s.carried[t]))
    case Pop(t) =>
      if s.items != [] then (Take(s), Taken(s.items[0]))
      else if s.closed then (s, ClosedQueue)
      else (s.(notEmpty := s.notEmpty.Wait(t)), Waiting)
    case PopWoken(t) =>
      if s.items != [] then (Take(s).(notEmpty := s.notEmpty.Leave(t)), Taken(s.items[0]))
      else if s.closed then (s.(notEmpty := s.notEmpty.Leave(t)), ClosedQueue)
      else (s.(notEmpty := s.notEmpty.Wait(t)), Waiting)
    case Close =>
      if s.closed then (s, AlreadyClosed) else (s.(closed := true, notEmpty := s.notEmpty.NotifyAll()), Done)
    case Spurious(t) =>
      (if t in s.notFull.asleep then s.(notFull := s.notFull.WakeOne(t)) else s.(notEmpty := s.notEmpty.WakeOne(t)), Done)
  }

  // ------------------------------------------------------------------ runs

  /** A run is a list of steps, each enabled where it is taken. */
  ghost predicate Run<T>(s: State<T>, es: seq<Event<T>>)
    decreases es
  {
    es == [] || (Enabled(s, es[0]) && Run(Step(s, es[0]).0, es[1..]))
  }

  ghost function After<T>(s: State<T>, es: seq<Event<T>>): State<T>
    requires Run(s, es)
    decreases es
  {
    if es == [] then s else After(Step(s, es[0]).0, es[1..])
  }

  ghost function Pushed<T>(s: State<T>, es: seq<Event<T>>): seq<T>
    requires Run(s, es)
    decreases es
  {
    if es == [] then []
    else (var (s', o) := Step(s, es[0]); (if o.Stored? then [o.val] else []) + Pushed(s', es[1..]))
  }

  ghost function Popped<T>(s: State<T>, es: seq<Event<T>>): seq<T>
    requires Run(s, es)
    decreases es
  {
    if es == [] then []
    else (var (s', o) := Step(s, es[0]); (if o.Taken? then [o.val] else []) + Popped(s', es[1..]))
  }

  ghost predicate NoLostWakeup<T>(s: State<T>) {
    && |s.items| <= s.capacity
    && (s.notEmpty.asleep != {} ==> s.items == [] && !s.closed)
    && (s.notFull.asleep != {} ==> |s.items| == s.capacity)
    && s.notFull.Inside() == s.carried.Keys
    && s.notFull.Inside() !! s.notEmpty.Inside()
    && s.notFull.asleep !! s.notFull.notified
    && s.notEmpty.asleep !! s.notEmpty.notified
  }

  /** In every reachable state a consumer that sleeps un-notified sees an empty open queue and a
      producer that sleeps un-notified sees a full one. */
  lemma {:induction false} WakeupsAreNeverLost<T>(s: State<T>, es: seq<Event<T>>)
    requires NoLostWakeup(s) && Run(s, es)
    ensures NoLostWakeup(After(s, es))
    ensures After(s, es).capacity == s.capacity
    decreases es
  {
    if es != [] {
      StepKeepsWakeups(s, es[0]);
      WakeupsAreNeverLost(Step(s, es[0]).0, es[1..]);
    }
  }

  lemma StepKeepsWakeups<T>(s: State<T>, e: Event<T>)
    requires NoLostWakeup(s) && Enabled(s, e)
    ensures NoLostWakeup(Step(s, e).0) && Step(s, e).0.capacity == s.capacity
  {
    var s' := Step(s, e).0;
    assert s'.notFull.Inside() == s'.carried.Keys;
  }

  /** First in, first out, whatever the interleaving: what has come out followed by what is still
      inside is what went in, in order. */
  lemma {:induction false} Fifo<T>(s: State<T>, es: seq<Event<T>>)
    requires Run(s, es)
    ensures s.items + Pushed(s, es) == Popped(s, es) + After(s, es).items
    decreases es
  {
    if es != [] {
      var (s', o) := Step(s, es[0]);
      Fifo(s', es[1..]);
      var i, j := Pushed(s', es[1..]), Popped(s', es[1..]);
      if o.Stored? {
        StoredFirst(s.items, o.val, i);
      } else if o.Taken? {
        TakenFirst(o.val, s'.items, i, j, After(s', es[1..]).items);
      } else {
        assert s'.items == s.items && [] + i == i && [] + j == j;
      }
    }
  }

  lemma StoredFirst<T>(items: seq<T>, v: T, i: seq<T>)
    ensures items + ([v] + i) == (items + [v]) + i
  {
  }

  lemma TakenFirst<T>(v: T, items: seq<T>, i: seq<T>, j: seq<T>, end: seq<T>)
    requires items + i == j + end
    ensures ([v] + items) + i == ([v] + j) + end
  {
    assert ([v] + items) + i == [v] + (items + i) && ([v] + j) + end == [v] + (j + end);
  }

  /** No deadlock between producers and consumers: with room for at least one item, whenever both a
      producer and a consumer are inside the queue some thread is runnable.  A thread sleeps for
      good only when every thread inside sleeps for the same reason. */
  lemma DeadlockNeedsOneSide<T>(capacity: nat, es: seq<Event<T>>)
    requires capacity > 0 && Run(Empty<T>(capacity), es)
    ensures var s := After(Empty<T>(capacity), es);
            s.notFull.notified == {} == s.notEmpty.notified ==>
              s.notFull.asleep == {} || s.notEmpty.asleep == {}
  {
    WakeupsAreNeverLost(Empty<T>(capacity), es);
  }

  /** With no room at all every push and every pop that has no item waits, and both sides sleep. */
  lemma ZeroCapacityDeadlocks<T>(v: T)
    ensures Run(Empty<T>(0), [Push(0, v), Pop(1)])
    ensures var s := After(Empty<T>(0), [Push(0, v), Pop(1)]);
            s.notFull == CondVar({0}, {}) && s.notEmpty == CondVar({1}, {})
  {
    var s0 := Empty<T>(0);
    var s1 := Step(s0, Push(0, v)).0;
    var s2 := Step(s1, Pop(1)).0;
    assert [Push(0, v), Pop(1)][1..] == [Pop(1)];
    assert Run(s2, []) && Run(s1, [Pop(1)]);
    assert After(s1, [Pop(1)]) == s2;
  }

  // ------------------------------------------------------------------ what is answered

  /** The value of the latest push that thread `t` has begun. */
  function LastPush<T>(es: seq<Event<T>>, t: Thread): Option<T> {
    if es == [] then None
    else
      var later := LastPush(es[1..], t);
      if later == None && es[0].Push? && es[0].thread == t then Some(es[0].val) else later
  }

  /** A thread that waits inside push carries the value it has come with. */
  lemma {:induction false} CarriesItsValue<T>(s: State<T>, es: seq<Event<T>>, t: Thread)
    requires NoLostWakeup(s) && Run(s, es) && t in After(s, es).carried
    ensures LastPush(es, t) == None ==> t in s.carried && After(s, es).carried[t] == s.carried[t]
    ensures LastPush(es, t).Some? ==> After(s, es).carried[t] == LastPush(es, t).value
    decreases es
  {
    if es != [] {
      StepKeepsWakeups(s, es[0]);
      CarriesItsValue(Step(s, es[0]).0, es[1..], t);
    }
  }

  lemma {:induction false} ClosedByClose<T>(s: State<T>, es: seq<Event<T>>)
    requires Run(s, es)
    ensures After(s, es).closed <==> s.closed || exists i :: 0 <= i < |es| && es[i].Close?
    decreases es
  {
    if es != [] {
      ClosedByClose(Step(s, es[0]).0, es[1..]);
      assert es[0].Close? ==> After(s, es).closed;
      if i :| 0 <= i < |es[1..]| && es[1..][i].Close? {
        assert es[i + 1].Close?;
      }
      if i :| 0 <= i < |es| && es[i].Close? {
        assert i > 0 ==> es[1..][i - 1].Close?;
      }
    }
  }

  /** What an operation answers, given what has been stored so far, what has been taken, and whether the queue has been
      closed: the oldest value not taken yet, if there is one; and a value is stored as long as there is room. */
  ghost predicate Answers<T>(e: Event<T>, o: Outcome<T>, capacity: nat, closed: bool, in_: seq<T>, out: seq<T>,
                             own: Option<T>)
    requires out <= in_
  {
    match e
    case TryPush(v) => o == if closed then ClosedQueue else if |in_| - |out| < capacity then Stored(v) else Refused
    case Push(_, v) => o == if closed then ClosedQueue else if |in_| - |out| < capacity then Stored(v) else Waiting
    case PushWoken(_) => own.Some? && o == if |in_| - |out| < capacity then Stored(own.value) else Waiting
    case TryPop => o == if |out| < |in_| then Taken(in_[|out|]) else if closed then ClosedQueue else Refused
    case Pop(_) => o == if |out| < |in_| then Taken(in_[|out|]) else if closed then ClosedQueue else Waiting
    case PopWoken(_) => o == if |out| < |in_| then Taken(in_[|out|]) else if closed then ClosedQueue else Waiting
    case Close => o == if closed then AlreadyClosed else Done
    case Spurious(_) => o == Done
  }

  /** After any run, open or closed, every operation answers exactly that. */
  lemma AnswersExactly<T>(capacity: nat, es: seq<Event<T>>, e: Event<T>)
    requires Run(Empty<T>(capacity), es) && Enabled(After(Empty<T>(capacity), es), e)
    ensures var s, in_, out := After(Empty<T>(capacity), es), Pushed(Empty<T>(capacity), es), Popped(Empty<T>(capacity), es);
            && out <= in_
            && Answers(e, Step(s, e).1, capacity, exists i :: 0 <= i < |es| && es[i].Close?, in_, out,
                       if e.PushWoken? then LastPush(es, e.thread) else None)
  {
    Fifo(Empty<T>(capacity), es);
    WakeupsAreNeverLost(Empty<T>(capacity), es);
    ClosedByClose(Empty<T>(capacity), es);
    if e.PushWoken? {
      CarriesItsValue(Empty<T>(capacity), es, e.thread);
    }
    var s, in_, out := After(Empty<T>(capacity), es), Pushed(Empty<T>(capacity), es), Popped(Empty<T>(capacity), es);
    assert in_ == out + s.items;
    assert |in_| == |out| + |s.items|;
  }

  // ------------------------------------------------------------------ closing

  /** The header says that on a closed queue any method raises ClosedQueue.  In a queue that has been used in any
      way and closed, exactly these do: a new push, and a pop when everything that went in has come out again.
      Otherwise a pop still hands out the oldest value left, a producer that was already waiting stores or waits
      on, and a second close raises another exception. */
  lemma ClosedQueueRaisesExactly<T>(capacity: nat, es: seq<Event<T>>, e: Event<T>)
    requires Run(Empty<T>(capacity), es) && After(Empty<T>(capacity), es).closed
    requires Enabled(After(Empty<T>(capacity), es), e) && !e.Spurious?
    ensures var s, in_, out := After(Empty<T>(capacity), es), Pushed(Empty<T>(capacity), es), Popped(Empty<T>(capacity), es);
            var o := Step(s, e).1;
            && out <= in_
            && (o == ClosedQueue <==> e.TryPush? || e.Push? || ((e.TryPop? || e.Pop? || e.PopWoken?) && in_ == out))
            && (e.TryPop? || e.Pop? || e.PopWoken? ==> in_ == out || o == Taken(in_[|out|]))
            && (e.PushWoken? ==> o == if |in_| - |out| == capacity then Waiting else Stored(s.carried[e.thread]))
            && (e.Close? ==> o == AlreadyClosed)
  {
    Fifo(Empty<T>(capacity), es);
    WakeupsAreNeverLost(Empty<T>(capacity), es);
    var s, in_, out := After(Empty<T>(capacity), es), Pushed(Empty<T>(capacity), es), Popped(Empty<T>(capacity), es);
    assert in_ == out + s.items;
    assert |in_| == |out| + |s.items|;
  }

  /** A value that was stored before the close comes out after it. */
  lemma ClosedQueueHandsOut<T>(v: T)
    ensures Run(Empty<T>(1), [Push(0, v), Close])
    ensures var s := After(Empty<T>(1), [Push(0, v), Close]); s.closed && Enabled(s, Pop(1)) && Step(s, Pop(1)).1 == Taken(v)
  {
    RunsOneMore(Empty<T>(1), [], Push(0, v));
    RunsOneMore(Empty<T>(1), [Push(0, v)], Close);
    assert [Push(0, v)] + [Close] == [Push(0, v), Close] && [] + [Push(0, v)] == [Push(0, v)];
  }

  /** A producer that waits at the close goes on to store when there is room. */
  lemma ClosedQueueStillStores<T>(v: T, x: T)
    ensures Run(Empty<T>(1), [Push(0, v), Push(1, x), Close, Pop(2)])
    ensures var s := After(Empty<T>(1), [Push(0, v), Push(1, x), Close, Pop(2)]);
            s.closed && Enabled(s, PushWoken(1)) && Step(s, PushWoken(1)).1 == Stored(x)
  {
    RunsOneMore(Empty<T>(1), [], Push(0, v));
    RunsOneMore(Empty<T>(1), [Push(0, v)], Push(1, x));
    RunsOneMore(Empty<T>(1), [Push(0, v), Push(1, x)], Close);
    RunsOneMore(Empty<T>(1), [Push(0, v), Push(1, x), Close], Pop(2));
    assert [] + [Push(0, v)] == [Push(0, v)] && [Push(0, v)] + [Push(1, x)] == [Push(0, v), Push(1, x)];
    assert [Push(0, v), Push(1, x)] + [Close] == [Push(0, v), Push(1, x), Close];
    assert [Push(0, v), Push(1, x), Close] + [Pop(2)] == [Push(0, v), Push(1, x), Close, Pop(2)];
  }

  lemma {:induction false} RunsOneMore<T>(s: State<T>, es: seq<Event<T>>, e: Event<T>)
    requires Run(s, es) && Enabled(After(s, es), e)
    ensures Run(s, es + [e]) && After(s, es + [e]) == Step(After(s, es), e).0
    decreases es
  {
    if es == [] {
      assert [e][1..] == [] && Run(Step(s, e).0, []);
    } else {
      RunsOneMore(Step(s, es[0]).0, es[1..], e);
      assert (es + [e])[1..] == es[1..] + [e];
    }
  }

  /** close() wakes every consumer and no producer. */
  lemma CloseWakesOnlyConsumers<T>(s: State<T>)
    requires !s.closed
    ensures var s' := Step(s, Close).0;
            s'.notEmpty.asleep == {} && s'.notEmpty.notified == s.notEmpty.Inside() && s'.notFull == s.notFull
  {
  }

  /** After close only producers that were inside at that moment can still store, each at most once. */
  lemma {:induction false} PushesAfterClose<T>(s: State<T>, es: seq<Event<T>>)
    requires s.closed && NoLostWakeup(s) && Run(s, es)
    ensures After(s, es).closed && After(s, es).notFull.Inside() <= s.notFull.Inside()
    ensures |Pushed(s, es)| + |After(s, es).notFull.Inside()| == |s.notFull.Inside()|
    decreases es
  {
    if es != [] {
      var (s', o) := Step(s, es[0]);
      StepKeepsWakeups(s, es[0]);
      PushesAfterClose(s', es[1..]);
      if o.Stored? {
        assert s'.notFull.Inside() == s.notFull.Inside() - {es[0].thread};
      } else {
        assert s'.notFull.Inside() == s.notFull.Inside();
      }
    }
  }

  // ------------------------------------------------------------------ the class

  /** The queue as the program has it: fields changed in place by each operation. */
  class Queue<T> {
    const maxSize: nat
    var q: seq<T>
    var closed: bool
    var isNotFull: CondVar
    var isNotEmpty: CondVar
    var waitingVals: map<Thread, T>

    ghost function View(): State<T>
      reads this
    {
      State(q, maxSize, closed, isNotFull, isNotEmpty, waitingVals)
    }

    constructor (maxSize: nat)
      ensures View() == Empty(maxSize)
    {
      this.maxSize := maxSize;
      q, closed := [], false;
      isNotFull, isNotEmpty, waitingVals := CondVar({}, {}), CondVar({}, {}), map[];
    }

    method TryPushVal(val: T) returns (o: Outcome<T>)
      modifies this
      ensures (View(), o) == Step(old(View()), TryPush(val))
    {
      if closed { return ClosedQueue; }
      if |q| == maxSize { return Refused; }
      if q == [] { isNotEmpty := isNotEmpty.NotifyAll(); }
      q := q + [val];
      o := Stored(val);
    }

    method TryPopVal() returns (o: Outcome<T>)
      modifies this
      ensures (View(), o) == Step(old(View()), TryPop)
    {
      if q == [] {
        return if closed then ClosedQueue else Refused;
      }
      if |q| == maxSize { isNotFull := isNotFull.NotifyAll(); }
      o := Taken(q[0]);
      q := q[1..];
    }

    /** push(val), up to its return or to the first wait. */
    method PushVal(t: Thread, val: T) returns (o: Outcome<T>)
      requires Enabled(View(), Push(t, val))
      modifies this
      ensures (View(), o) == Step(old(View()), Push(t, val))
    {
      if closed { return ClosedQueue; }
      if |q| == maxSize {
        isNotFull, waitingVals := isNotFull.Wait(t), waitingVals[t := val];
        return Waiting;
      }
      if q == [] { isNotEmpty := isNotEmpty.NotifyAll(); }
      q := q + [val];
      o := Stored(val);
    }

    /** push, from one wake-up to its return or to the next wait. */
    method PushResume(t: Thread) returns (o: Outcome<T>)
      requires Enabled(View(), PushWoken(t))
      modifies this
      ensures (View(), o) == Step(old(View()), PushWoken(t))
    {
      if |q| == maxSize {
        isNotFull := isNotFull.Wait(t);
        return Waiting;
      }
      if q == [] { isNotEmpty := isNotEmpty.NotifyAll(); }
      q := q + [waitingVals[t]];
      o := Stored(waitingVals[t]);
      isNotFull, waitingVals := isNotFull.Leave(t), waitingVals - {t};
    }

    /** pop(), up to its return, its exception or the first wait. */
    method PopVal(t: Thread) returns (o: Outcome<T>)
      requires Enabled(View(), Pop(t))
      modifies this
      ensures (View(), o) == Step(old(View()), Pop(t))
    {
      if q == [] {
        if closed { return ClosedQueue; }
        isNotEmpty := isNotEmpty.Wait(t);
        return Waiting;
      }
      if |q| == maxSize { isNotFull := isNotFull.NotifyAll(); }
      o := Taken(q[0]);
      q := q[1..];
    }

    /** pop, from one wake-up to its return, its exception or the next wait. */
    method PopResume(t: Thread) returns (o: Outcome<T>)
      requires Enabled(View(), PopWoken(t))
      modifies this
      ensures (View(), o) == Step(old(View()), PopWoken(t))
    {
      if q == [] {
        if closed {
          isNotEmpty := isNotEmpty.Leave(t);
          return ClosedQueue;
        }
        isNotEmpty := isNotEmpty.Wait(t);
        return Waiting;
      }
      if |q| == maxSize { isNotFull := isNotFull.NotifyAll(); }
      o := Taken(q[0]);
      q := q[1..];
      isNotEmpty := isNotEmpty.Leave(t);
    }

    method CloseQueue() returns (o: Outcome<T>)
      modifies this
      ensures (View(), o) == Step(old(View()), Close)
    {
      if closed { return AlreadyClosed; }
      closed := true;
      isNotEmpty := isNotEmpty.NotifyAll();
      o := Done;
    }
  }
}
