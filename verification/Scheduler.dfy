/** The two-level scheduler of snownet as a protocol: which queues are linked in the global queue, which
    are held by a worker, and how the operations of snownet_mq.cc, each atomic under its lock, move them. */
module Scheduler {
  import opened MessageQueue

  /** `sent` and `got` record what was pushed to and popped from each queue. */
  datatype State = State(qs: map<nat, Queue>, global: seq<nat>, held: multiset<nat>,
                         sent: map<nat, seq<Message>>, got: map<nat, seq<Message>>)

  datatype Op =
    | Create(h: nat)             // snownet_mq_create: the creator holds the queue
    | Put(h: nat)                // a holder links the queue: snownet_globalmq_push
    | Take                       // a worker takes the first queue: snownet_globalmq_pop
    | Push(h: nat, m: Message)   // anyone: snownet_mq_push
    | Pop(h: nat)                // a holder: snownet_mq_pop; it forgets the queue if it was empty
    | Mark(h: nat)               // snownet_mq_mark_release
    | Release(h: nat)            // a holder of a queue without service: snownet_mq_release

  /** How often the scheduler knows the queue. */
  function Known(s: State, h: nat): nat { multiset(s.global)[h] + s.held[h] }

  /** What the callers promise: only a holder links, pops or releases; a queue is marked once; nobody
      pushes to a marked queue (its handle is gone). */
  predicate Allowed(s: State, op: Op) {
    match op
    case Create(h) => h !in s.qs
    case Put(h) => h in s.qs && h in s.held
    case Take => true
    case Push(h, _) => h in s.qs && !s.qs[h].release
    case Pop(h) => h in s.qs && h in s.held
    case Mark(h) => h in s.qs && !s.qs[h].release
    case Release(h) => h in s.qs && h in s.held
  }

  function Linked(s: State, h: nat): State { s.(global := s.global + [h]) }

  function Dropped(s: State, h: nat): State { s.(held := s.held[h := if s.held[h] > 0 then s.held[h] - 1 else 0]) }

  function Apply(s: State, op: Op): State
    requires Allowed(s, op)
  {
    match op
    case Create(h) =>
      s.(qs := s.qs[h := Created(h)], held := s.held[h := s.held[h] + 1], sent := s.sent[h := []], got := s.got[h := []])
    case Put(h) => Linked(Dropped(s, h), h)
    case Take =>
      if s.global == [] then s else s.(global := s.global[1..], held := s.held[s.global[0] := s.held[s.global[0]] + 1])
    case Push(h, m) => PushTo(s, h, m)
    case Pop(h) =>
      var q := s.qs[h];
      var s' := s.(qs := s.qs[h := Popped(q)]);
      if q.msgs == [] then Dropped(s', h)
      else if h in s.got then s'.(got := s.got[h := s.got[h] + [q.msgs[0]]]) else s'
    case Mark(h) =>
      var q := s.qs[h];
      var s' := s.(qs := s.qs[h := Marked(q)]);
      if q.inGlobal then s' else Linked(s', h)
    case Release(h) =>
      if s.qs[h].release then
        Dropped(s, h).(qs := s.qs - {h}, sent := s.sent - {h}, got := s.got - {h})
      else Linked(Dropped(s, h), h)
  }

  function PushTo(s: State, h: nat, m: Message): State
    requires h in s.qs
  {
    var q := s.qs[h];
    var s' := s.(qs := s.qs[h := Pushed(q, m)], sent := if h in s.sent then s.sent[h := s.sent[h] + [m]] else s.sent);
    if q.inGlobal then s' else Linked(s', h)
  }

  /** A queue is known to the scheduler at most once, and only while it exists; a queue with the flag or
      with messages is known; one that is known without the flag is being released. */
  ghost predicate Inv(s: State) {
    && (forall h :: Known(s, h) <= 1)
    && (forall h :: Known(s, h) > 0 ==> h in s.qs)
    && (forall h :: h in s.qs ==>
          && (s.qs[h].inGlobal ==> Known(s, h) == 1)
          && (s.qs[h].msgs != [] ==> s.qs[h].inGlobal || (s.qs[h].release && Known(s, h) == 1))
          && (!s.qs[h].inGlobal && Known(s, h) == 1 ==> s.qs[h].release)
          && h in s.sent && h in s.got && s.sent[h] == s.got[h] + s.qs[h].msgs)
  }

  function Start(): State { State(map[], [], multiset{}, map[], map[]) }

  lemma StartInv()
    ensures Inv(Start())
  {
  }

  lemma LinkedKnown(s: State, h: nat, x: nat)
    ensures Known(Linked(s, h), x) == Known(s, x) + (if x == h then 1 else 0)
    ensures Known(Dropped(s, h), x) == Known(s, x) - (if x == h && s.held[h] > 0 then 1 else 0)
  {
    assert multiset(s.global + [h]) == multiset(s.global) + multiset{h};
  }

  lemma TakeKnown(s: State, x: nat)
    requires s.global != []
    ensures Known(Apply(s, Take), x) == Known(s, x)
  {
    assert s.global == [s.global[0]] + s.global[1..];
  }

  /** Every step keeps the invariant. */
  lemma StepInv(s: State, op: Op)
    requires Inv(s) && Allowed(s, op)
    ensures Inv(Apply(s, op))
  {
    var s' := Apply(s, op);
    match op
    case Create(h) =>
      forall x ensures Known(s', x) == Known(s, x) + (if x == h then 1 else 0) { }
    case Put(h) =>
      forall x ensures Known(s', x) == Known(s, x) { LinkedKnown(s, h, x); LinkedKnown(Dropped(s, h), h, x); }
    case Take =>
      if s.global != [] { forall x ensures Known(s', x) == Known(s, x) { TakeKnown(s, x); } }
    case Push(h, m) => PushInv(s, h, m);
    case Pop(h) => PopInv(s, h);
    case Mark(h) => MarkInv(s, h);
    case Release(h) => ReleaseInv(s, h);
  }

  lemma PushInv(s: State, h: nat, m: Message)
    requires Inv(s) && h in s.qs && !(!s.qs[h].inGlobal && Known(s, h) == 1)
    ensures Inv(PushTo(s, h, m))
  {
    var s' := PushTo(s, h, m);
    var mid := s.(qs := s'.qs, sent := s'.sent);
    forall x ensures Known(s', x) == Known(s, x) + (if x == h && !s.qs[h].inGlobal then 1 else 0) {
      LinkedKnown(mid, h, x);
    }
  }

  lemma PopInv(s: State, h: nat)
    requires Inv(s) && h in s.qs && h in s.held
    ensures Inv(Apply(s, Pop(h)))
  {
    var s', q := Apply(s, Pop(h)), s.qs[h];
    forall x ensures Known(s', x) == Known(s, x) - (if x == h && q.msgs == [] then 1 else 0) {
      LinkedKnown(s.(qs := s'.qs), h, x);
    }
    if q.msgs != [] { assert q.msgs == [q.msgs[0]] + q.msgs[1..]; }
  }

  lemma MarkInv(s: State, h: nat)
    requires Inv(s) && h in s.qs && !s.qs[h].release
    ensures Inv(Apply(s, Mark(h)))
  {
    var s' := Apply(s, Mark(h));
    forall x ensures Known(s', x) == Known(s, x) + (if x == h && !s.qs[h].inGlobal then 1 else 0) {
      LinkedKnown(s.(qs := s'.qs), h, x);
    }
  }

  lemma ReleaseInv(s: State, h: nat)
    requires Inv(s) && h in s.qs && h in s.held
    ensures Inv(Apply(s, Release(h)))
  {
    var s' := Apply(s, Release(h));
    forall x ensures Known(s', x) == Known(s, x) - (if x == h && s.qs[h].release then 1 else 0) {
      LinkedKnown(s, h, x);
      LinkedKnown(Dropped(s, h), h, x);
    }
  }

  // ----- whole runs ----------------------------------------------------------------------------------

  ghost predicate Run(ops: seq<Op>, t: seq<State>) {
    && |t| == |ops| + 1 && t[0] == Start()
    && forall i :: 0 <= i < |ops| ==> Allowed(t[i], ops[i]) && t[i + 1] == Apply(t[i], ops[i])
  }

  /** On every run: no queue is linked twice, a queue with messages is linked or held (no wakeup is
      lost), and what was popped from a queue is what was pushed to it, in order, without gaps. */
  lemma {:induction false} RunSafe(ops: seq<Op>, t: seq<State>, n: nat)
    requires Run(ops, t) && n < |t|
    ensures Inv(t[n])
    ensures forall h :: h in t[n].qs && t[n].qs[h].msgs != [] ==> (h in t[n].global) != (h in t[n].held)
    ensures forall h :: h in t[n].qs ==> h in t[n].got && h in t[n].sent && t[n].got[h] <= t[n].sent[h]
    ensures forall i, j :: 0 <= i < j < |t[n].global| ==> t[n].global[i] != t[n].global[j]
  {
    if n == 0 {
      StartInv();
    } else {
      RunSafe(ops, t, n - 1);
      StepInv(t[n - 1], ops[n - 1]);
    }
    var s := t[n];
    forall h | h in s.qs && s.qs[h].msgs != [] ensures (h in s.global) != (h in s.held) {
      assert Known(s, h) == 1;
      assert h in s.global <==> multiset(s.global)[h] > 0;
    }
    forall i, j | 0 <= i < j < |s.global| ensures s.global[i] != s.global[j] {
      OnceLinked(s, i, j);
    }
  }

  /** A queue that a worker holds is not linked. */
  lemma HeldOrLinked(s: State, h: nat)
    requires Inv(s) && h in s.held
    ensures h !in s.global
  {
    assert Known(s, h) <= 1;
    assert h in s.global ==> h in multiset(s.global);
  }

  lemma OnceLinked(s: State, i: nat, j: nat)
    requires Inv(s) && i < j < |s.global|
    ensures s.global[i] != s.global[j]
  {
    var a, b := s.global[..j], s.global[j..];
    assert s.global == a + b;
    assert multiset(s.global) == multiset(a) + multiset(b);
    assert a[i] in multiset(a) && b[0] in multiset(b);
    assert multiset(s.global)[s.global[i]] <= Known(s, s.global[i]) <= 1;
  }

  /** A push links the queue a second time, or links it while a worker holds it, exactly when the queue was
      marked for release while idle: `mark_release` links such a queue without setting its flag. In every
      other state the push keeps the invariant. */
  lemma PushExact(s: State, h: nat, m: Message)
    requires Inv(s) && h in s.qs
    ensures var marked := s.qs[h].release && !s.qs[h].inGlobal && Known(s, h) == 1;
            && (Known(PushTo(s, h, m), h) >= 2 <==> marked)
            && (Inv(PushTo(s, h, m)) <==> !marked)
  {
    var s' := PushTo(s, h, m);
    LinkedKnown(s.(qs := s'.qs, sent := s'.sent), h, h);
    if s.qs[h].inGlobal || Known(s, h) != 1 {
      PushInv(s, h, m);
    }
  }

  /** A run in which this happens: the queue of a new service is put to work, found empty, marked, and
      then pushed to. Two workers can now take it at the same time. */
  lemma PushAfterMark(m: Message)
    ensures var s := Apply(Apply(Apply(Start(), Create(0)), Pop(0)), Mark(0));
            Inv(s) && PushTo(s, 0, m).global == [0, 0] &&
            Apply(Apply(PushTo(s, 0, m), Take), Take).held == multiset{0, 0}
  {
    var s := MarkedIdle();
    var one := Apply(Apply(PushTo(s, 0, m), Take), Take);
    assert one.held == multiset{0, 0};
  }

  lemma MarkedIdle() returns (s: State)
    ensures s == Apply(Apply(Apply(Start(), Create(0)), Pop(0)), Mark(0))
    ensures Inv(s) && s.global == [0] && s.held == multiset{} && 0 in s.qs && !s.qs[0].inGlobal
  {
    hide Inv;
    var s1 := Apply(Start(), Create(0));
    StartInv();
    StepInv(Start(), Create(0));
    StepInv(s1, Pop(0));
    var s2 := Apply(s1, Pop(0));
    StepInv(s2, Mark(0));
    s := Apply(s2, Mark(0));
    assert s2.held == multiset{};
    assert s.global == [0];
  }
}
