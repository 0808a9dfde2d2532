/** The queues of a server as objects. What the functions of snownet_mq.cc do to the objects is what the
    steps of the protocol say, so every run of the objects has the safety proved for the protocol. */
module QueueServer {
  import opened MessageQueue
  import opened Scheduler

  function Handles(items: seq<Mq>): seq<nat> { seq(|items|, i requires 0 <= i < |items| => items[i].handle) }

  lemma HandlesAppend(items: seq<Mq>, q: Mq)
    ensures Handles(items + [q]) == Handles(items) + [q.handle]
    ensures items != [] ==> Handles(items[1..]) == Handles(items)[1..]
  {
  }

  lemma ReleaseApplied(s: State, h: nat)
    requires Allowed(s, Release(h))
    ensures Apply(s, Release(h)) ==
            if s.qs[h].release then State(s.qs - {h}, s.global, s.held[h := s.held[h] - 1], s.sent - {h}, s.got - {h})
            else State(s.qs, s.global + [h], s.held[h := s.held[h] - 1], s.sent, s.got)
  {
  }

  class Server {
    var queues: map<nat, Mq>
    const linked: GlobalQueue
    ghost var held: multiset<nat>
    ghost var sent: map<nat, seq<Message>>
    ghost var got: map<nat, seq<Message>>

    ghost function Frame(): set<object>
      reads this, queues.Values
    {
      {this, linked} + queues.Values + (set q | q in queues.Values :: q.queue)
    }

    /** Each queue has a ring of its own, and only registered queues are linked. */
    ghost predicate Valid()
      reads Frame()
    {
      && (forall h :: h in queues ==> queues[h].handle == h && queues[h].Valid())
      && (forall h, k :: h in queues && k in queues && h != k ==> queues[h].queue != queues[k].queue)
      && (forall q :: q in linked.items ==> q.handle in queues && queues[q.handle] == q)
    }

    ghost function Queues(): (qs: map<nat, Queue>)
      reads Frame()
      requires Valid()
      ensures qs.Keys == queues.Keys
    {
      map h | h in queues :: queues[h].View()
    }

    ghost function View(): State
      reads Frame()
      requires Valid()
    {
      State(Queues(), Handles(linked.items), held, sent, got)
    }

    constructor ()
      ensures Valid() && View() == Start() && Inv(View()) && fresh(linked)
    {
      linked := new GlobalQueue();
      queues, held, sent, got := map[], multiset{}, map[], map[];
    }

    /** What a registered queue shows, and that no other queue shares its memory. */
    lemma Shown(h: nat)
      requires Valid() && h in queues
      ensures h in Queues() && Queues()[h] == queues[h].View() == Queue(h, queues[h].Contents(), queues[h].in_global, queues[h].release)
      ensures queues[h].Valid() && queues[h].handle == h
      ensures forall k :: k in queues && k != h ==> queues[k] != queues[h] && queues[k].queue != queues[h].queue
    {
    }

    /** One queue was added or changed, and only registered queues were linked. */
    twostate predicate Renewed(h: nat)
      reads this, queues.Values, set q | q in queues.Values :: q.queue
      reads linked
      requires old(Valid())
    {
      && queues.Keys == old(queues.Keys) + {h}
      && (forall k :: k in old(queues) ==> queues[k] == old(queues[k]))
      && (forall k :: k in queues && k != h ==> unchanged(queues[k]) && queues[k].queue == old(queues[k].queue) && unchanged(queues[k].queue))
      && queues[h].Valid() && queues[h].handle == h
      && (fresh(queues[h].queue) || (h in old(queues) && queues[h].queue == old(queues[h].queue)))
      && forall q :: q in linked.items ==> q in old(linked.items) || q == queues[h]
    }

    twostate lemma RenewedValid(h: nat)
      requires old(Valid()) && Renewed(h)
      ensures Valid()
    {
      hide Mq.Valid, Mq.View, Mq.Contents, Queues;
      forall k | k in queues && k != h ensures queues[k].queue == old(queues[k].queue) && queues[k].Valid() { }
    }

    twostate lemma RenewedQueues(h: nat)
      requires old(Valid()) && Renewed(h) && Valid()
      ensures Queues() == old(Queues())[h := queues[h].View()]
      ensures h in old(queues) && queues[h].View() == old(queues[h].View()) ==> Queues() == old(Queues())
    {
      hide Mq.Valid, Mq.View, Mq.Contents;
      forall k | k in queues && k != h ensures queues[k].View() == old(queues[k].View()) { }
    }

    /** Nothing was changed but the sequence of linked queues, which only lost members. */
    twostate lemma Unlinked()
      requires old(Valid()) && queues == old(queues) && forall q :: q in linked.items ==> q in old(linked.items)
      requires forall k :: k in queues ==> unchanged(queues[k]) && unchanged(old(queues[k].queue))
      ensures Valid() && Queues() == old(Queues())
    {
      hide Mq.Valid, Mq.View, Mq.Contents;
      forall k | k in queues ensures queues[k].View() == old(queues[k].View()) && queues[k].Valid() { }
    }

    /** A queue that is not linked was removed. */
    twostate lemma Removed(h: nat)
      requires old(Valid()) && h in old(queues) && queues == old(queues) - {h}
      requires linked.items == old(linked.items) && old(queues[h]) !in linked.items
      requires forall k :: k in old(queues) && k != h ==> unchanged(old(queues[k])) && unchanged(old(queues[k].queue))
      ensures Valid() && Queues() == old(Queues()) - {h}
    {
      hide Mq.Valid, Mq.View, Mq.Contents;
      forall k | k in queues ensures queues[k].View() == old(queues[k].View()) && queues[k].Valid() { }
    }

    method Create(h: nat)
      requires Valid() && Allowed(View(), Op.Create(h))
      modifies Frame()
      ensures Valid() && View() == Apply(old(View()), Op.Create(h))
    {
      hide Mq.Valid, Mq.View, Mq.Contents, Created, Queues, Valid;
      var q := new Mq(h);
      queues, held, sent, got := queues[h := q], held[h := held[h] + 1], sent[h := []], got[h := []];
      RenewedValid(h);
      RenewedQueues(h);
    }

    method Put(h: nat)
      requires Valid() && Allowed(View(), Op.Put(h))
      modifies Frame()
      ensures Valid() && View() == Apply(old(View()), Op.Put(h))
    {
      hide Mq.Valid, Mq.View, Mq.Contents, Queues;
      HandlesAppend(linked.items, queues[h]);
      Shown(h);
      linked.Push(queues[h]);
      held := held[h := held[h] - 1];
      RenewedValid(h);
      RenewedQueues(h);
    }

    method Take() returns (q: Mq?)
      requires Valid()
      modifies Frame()
      ensures Valid() && View() == Apply(old(View()), Op.Take)
      ensures if old(linked.items) == [] then q == null else q == old(linked.items)[0]
    {
      hide Mq.Valid, Mq.View, Mq.Contents, Queues;
      ghost var items := linked.items;
      q := linked.Pop();
      if q != null {
        HandlesAppend(items, q);
        held := held[q.handle := held[q.handle] + 1];
      }
      Unlinked();
    }

    method Push(h: nat, m: Message)
      requires Valid() && Allowed(View(), Op.Push(h, m))
      modifies Frame()
      ensures Valid() && View() == Apply(old(View()), Op.Push(h, m))
    {
      hide Mq.Valid, Mq.View, Mq.Contents, Pushed, Queues, Valid;
      Shown(h);
      HandlesAppend(linked.items, queues[h]);
      queues[h].Push(linked, m);
      sent := if h in sent then sent[h := sent[h] + [m]] else sent;
      RenewedValid(h);
      RenewedQueues(h);
    }

    method Pop(h: nat) returns (empty: bool, m: Message)
      requires Valid() && Allowed(View(), Op.Pop(h))
      modifies Frame()
      ensures Valid() && View() == Apply(old(View()), Op.Pop(h))
      ensures empty == (old(View()).qs[h].msgs == []) && (!empty ==> m == old(View()).qs[h].msgs[0])
    {
      hide Mq.Valid, Mq.View, Mq.Contents, Popped, Raised, Queues, Valid;
      Shown(h);
      empty, m := queues[h].Pop();
      if empty {
        held := held[h := held[h] - 1];
      } else if h in got {
        got := got[h := got[h] + [m]];
      }
      RenewedValid(h);
      RenewedQueues(h);
    }

    method Mark(h: nat)
      requires Valid() && Allowed(View(), Op.Mark(h))
      modifies Frame()
      ensures Valid() && View() == Apply(old(View()), Op.Mark(h))
    {
      hide Mq.Valid, Mq.View, Mq.Contents, Marked, Queues, Valid;
      HandlesAppend(linked.items, queues[h]);
      Shown(h);
      queues[h].MarkRelease(linked);
      RenewedValid(h);
      RenewedQueues(h);
    }

    /** The messages left in a queue that goes are the ones that were sent and not popped. */
    method Release(h: nat) returns (dropped: seq<Message>)
      requires Valid() && Allowed(View(), Op.Release(h)) && Inv(View())
      modifies Frame()
      ensures Valid() && View() == Apply(old(View()), Op.Release(h))
      ensures dropped == if old(View()).qs[h].release then old(View()).qs[h].msgs else []
    {
      hide Mq.Valid, Mq.View, Mq.Contents, Inv, Queues, Valid, Handles, Known, PushTo, Apply, Dropped, Linked, Popped, Pushed, Marked;
      ghost var items := linked.items;
      NotLinked(h);
      Shown(h);
      ReleaseApplied(View(), h);
      var freed;
      dropped, freed := queues[h].Release(linked);
      held := held[h := held[h] - 1];
      if freed {
        queues, sent, got := queues - {h}, sent - {h}, got - {h};
        Removed(h);
      } else {
        HandlesAppend(items, queues[h]);
        RenewedValid(h);
        RenewedQueues(h);
      }
    }

    lemma NotLinked(h: nat)
      requires Valid() && Inv(View()) && h in queues && h in held
      ensures queues[h] !in linked.items
    {
      hide Mq.Valid, Mq.View, Mq.Contents, Inv, Queues;
      HeldOrLinked(View(), h);
      forall q | q in linked.items ensures q.handle in View().global {
        var i :| 0 <= i < |linked.items| && linked.items[i] == q;
        assert View().global[i] == q.handle;
      }
    }

    /** Any step on the objects is the step of the protocol, and keeps its invariant. */
    method Perform(op: Op)
      requires Valid() && Inv(View()) && Allowed(View(), op)
      modifies Frame()
      ensures Valid() && View() == Apply(old(View()), op) && Inv(View())
    {
      hide Valid, View, Frame, Inv, Apply;
      StepInv(View(), op);
      match op
      case Create(h) => Create(h);
      case Put(h) => Put(h);
      case Take => var q := Take();
      case Push(h, m) => Push(h, m);
      case Pop(h) => var empty, m := Pop(h);
      case Mark(h) => Mark(h);
      case Release(h) => var dropped := Release(h);
    }
  }
}
