/**
 Message ports of pth_msg.c. A message is a ring node that carries the port to
 reply to, and a port is a ring of messages: whether messages come out in the
 order they were put in depends on no message being on a ring twice.
 */
module MsgPort {
  import opened Basics
  import opened Ring

  datatype Letter = Letter(replyPort: Port?)

  type Message = RingNode<Letter>

  class Port {
    const name: string
    const queue: Ring<Letter>
    // Everything ever put on the port and everything ever got from it.
    ghost var puts: seq<Message>
    ghost var gots: seq<Message>

    /** What was got is what was put, in that order, up to the messages still pending. */
    ghost predicate Valid()
      reads this, queue, queue.nodes
    {
      queue.Valid() && puts == gots + queue.nodes
    }

    constructor(name: string)
      ensures Valid() && fresh(queue) && this.name == name && queue.nodes == [] && puts == []
    {
      this.name := name;
      queue := new Ring();
      puts, gots := [], [];
    }

    /**
     A message that is not pending here goes behind all that are; one that is
     leaves a queue that no sequence of messages fits.
     */
    method Put(m: Message)
      requires Valid()
      modifies this`puts, queue, queue.nodes, m
      ensures m !in old(queue.nodes) ==> Valid() && puts == old(puts) + [m] && queue.nodes == old(queue.nodes) + [m]
      ensures m in old(queue.nodes) ==>
        queue.rNodes == old(queue.rNodes) + 1 && forall s: seq<Message> :: !queue.Represents(s)
      ensures m in old(queue.nodes) ==> queue.nodes == old(queue.nodes)
      ensures m == old(queue.rHook) ==> queue.rHook == m && queue.Alone()
    {
      queue.Append(m);
      puts := puts + [m];
    }

    /** The oldest pending message. */
    method Get() returns (m: RingNode?<Letter>)
      requires Valid() || queue.rHook == null || queue.Alone()
      modifies this`gots, queue, queue.nodes
      ensures m == old(queue.rHook)
      ensures old(Valid()) && old(queue.nodes) == [] ==> Valid() && m == null && queue.nodes == [] && gots == old(gots)
      ensures old(Valid()) && old(queue.nodes) != [] ==>
        Valid() && m == old(queue.nodes)[0] && queue.nodes == old(queue.nodes)[1..] && gots == old(gots) + [m]
      ensures old(queue.rHook) == null ==> queue.rHook == null && queue.rNodes == old(queue.rNodes)
      ensures old(queue.Alone()) ==> queue.rHook == null && queue.rNodes == old(queue.rNodes) - 1
      ensures !old(queue.Valid()) ==> queue.nodes == old(queue.nodes)
    {
      m := queue.Pop();
      if m != null {
        gots := gots + [m];
      }
    }

    /** As long as no message was put while pending: puts minus gets. */
    method Pending() returns (n: int)
      ensures n == queue.rNodes
      ensures Valid() ==> n == |puts| - |gots|
    {
      n := queue.rNodes;
    }
  }

  /** The same message put twice on an empty port comes out once, and then the port reports one that nobody can get. */
  method PutTwice(p: Port, m: Message) returns (first: RingNode?<Letter>, second: RingNode?<Letter>, pending: int)
    requires p.Valid() && p.queue.nodes == []
    modifies p, p.queue, p.queue.nodes, m
    ensures first == m && second == null && pending == 1
  {
    p.Put(m);
    assert p.queue.nodes == [m];
    p.Put(m);
    first := p.Get();
    second := p.Get();
    pending := p.Pending();
  }

  // ---- several ports ----

  ghost function OnRing(p: Port): set<Message>
    reads p.queue
  {
    set m | m in p.queue.nodes
  }

  ghost function Queues(all: set<Port>): set<Ring<Letter>> {
    set p | p in all :: p.queue
  }

  ghost function Pendings(all: set<Port>): (r: set<Message>)
    reads Queues(all)
    ensures forall p | p in all :: OnRing(p) <= r
  {
    set p, m | p in all && m in OnRing(p) :: m
  }

  /** Two ports have their own queues and no message in common. */
  ghost predicate Apart(p: Port, q: Port)
    reads p.queue, q.queue
  {
    p.queue != q.queue && OnRing(p) !! OnRing(q)
  }

  ghost predicate Separate(all: set<Port>)
    reads Queues(all)
  {
    forall p, q | p in all && q in all && p != q :: Apart(p, q)
  }

  ghost predicate AllValid(all: set<Port>)
    reads all, Queues(all), Pendings(all)
  {
    && Separate(all)
    && (forall p | p in all :: assert OnRing(p) <= Pendings(all); p.Valid())
  }

  /** The answer goes behind all others at the reply port. */
  method Reply(m: Message, ghost all: set<Port>) returns (ok: bool)
    requires AllValid(all) && m !in Pendings(all)
    requires m.item.replyPort != null ==> m.item.replyPort in all
    modifies all`puts, Queues(all), Pendings(all), m
    ensures ok == (m.item.replyPort != null)
    ensures AllValid(all) && Pendings(all) <= old(Pendings(all)) + {m}
    ensures forall p | p in all :: p.gots == old(p.gots)
    ensures forall p | p in all :: p.queue.nodes == old(p.queue.nodes) + if p == m.item.replyPort then [m] else []
  {
    if m.item.replyPort == null {
      return false;
    }
    var p := m.item.replyPort;
    assert OnRing(p) <= Pendings(all);
    PutOn(p, m, all);
    return true;
  }

  method PutOn(p: Port, m: Message, ghost all: set<Port>)
    requires AllValid(all) && m !in Pendings(all) && p in all
    modifies p`puts, p.queue, OnRing(p), m
    ensures AllValid(all) && p.queue.nodes == old(p.queue.nodes) + [m] && p.gots == old(p.gots)
    ensures forall q | q in all && q != p :: q.queue.nodes == old(q.queue.nodes)
  {
    assert OnRing(p) <= Pendings(all);
    p.Put(m);
    forall q | q in all && q != p ensures q.Valid() && q.queue.nodes == old(q.queue.nodes) {
      assert old(Apart(p, q)) && old(q.Valid());
      assert old(OnRing(q) <= Pendings(all));
      forall i | 0 <= i < |q.queue.nodes| ensures NodeOk(q.queue.nodes, i) {
        assert old(NodeOk(q.queue.nodes, i));
        assert q.queue.nodes[i] in old(OnRing(q)) && q.queue.nodes[i] !in old(OnRing(p));
      }
    }
  }

  method GetFrom(p: Port, ghost all: set<Port>) returns (m: RingNode?<Letter>)
    requires AllValid(all) && p in all
    modifies p`gots, p.queue, OnRing(p)
    ensures AllValid(all) && p.puts == old(p.puts)
    ensures m == null <==> old(p.queue.nodes) == []
    ensures m == null ==> p.queue.nodes == [] && p.gots == old(p.gots)
    ensures m != null ==> m == old(p.queue.nodes)[0] && p.queue.nodes == old(p.queue.nodes)[1..] && m !in Pendings(all)
    ensures m != null ==> m in old(Pendings(all))
    ensures Pendings(all) <= old(Pendings(all))
    ensures forall q | q in all && q != p :: q.queue.nodes == old(q.queue.nodes)
  {
    assert OnRing(p) <= Pendings(all);
    m := p.Get();
    assert m != null ==> m in old(OnRing(p));
    assert OnRing(p) <= old(OnRing(p));
    forall q | q in all && q != p ensures q.Valid() && q.queue.nodes == old(q.queue.nodes) && m !in q.queue.nodes {
      assert old(Apart(p, q)) && old(q.Valid());
      assert old(p.queue.nodes) != [] ==> m in old(OnRing(p));
      forall i | 0 <= i < |q.queue.nodes| ensures NodeOk(q.queue.nodes, i) && m != q.queue.nodes[i] {
        assert old(NodeOk(q.queue.nodes, i));
        assert q.queue.nodes[i] in old(OnRing(q)) && q.queue.nodes[i] !in old(OnRing(p));
      }
    }
  }

  // ---- destroying a port ----

  /** One turn of the loop that empties a port: a message that names the port itself goes straight back on it. */
  function DrainOnce(q: seq<Message>, mp: Port): seq<Message> {
    if q == [] then [] else if q[0].item.replyPort == mp then q[1..] + [q[0]] else q[1..]
  }

  function Drain(q: seq<Message>, mp: Port, rounds: nat): seq<Message>
    decreases rounds
  {
    if rounds == 0 then q else Drain(DrainOnce(q, mp), mp, rounds - 1)
  }

  lemma {:induction false} DrainKeepsSelf(q: seq<Message>, mp: Port, m: Message, rounds: nat)
    requires m in q && m.item.replyPort == mp
    ensures m in Drain(q, mp, rounds)
    decreases rounds
  {
    if rounds > 0 {
      assert q == [q[0]] + q[1..];
      DrainKeepsSelf(DrainOnce(q, mp), mp, m, rounds - 1);
    }
  }

  lemma {:induction false} DrainEmpties(q: seq<Message>, mp: Port)
    requires forall m | m in q :: m.item.replyPort != mp
    ensures Drain(q, mp, |q|) == []
  {
    if q != [] {
      DrainEmpties(q[1..], mp);
    }
  }

  /** Emptying a port comes to an end exactly when no pending message names it as reply port. */
  lemma DestroyEndsIff(q: seq<Message>, mp: Port)
    ensures (exists rounds: nat :: Drain(q, mp, rounds) == []) <==> forall m | m in q :: m.item.replyPort != mp
  {
    if m :| m in q && m.item.replyPort == mp {
      forall rounds: nat ensures Drain(q, mp, rounds) != [] {
        DrainKeepsSelf(q, mp, m, rounds);
      }
    } else {
      DrainEmpties(q, mp);
    }
  }

  ghost predicate Closed(all: set<Port>, q: seq<Message>) {
    forall m | m in q && m.item.replyPort != null :: m.item.replyPort in all
  }

  /** The messages of q that ask for an answer at p, in order. */
  ghost function RepliesTo(q: seq<Message>, p: Port): seq<Message> {
    if q == [] then []
    else RepliesTo(q[..|q| - 1], p) + if q[|q| - 1].item.replyPort == p then [q[|q| - 1]] else []
  }

  /** One turn as the code has it: get, then reply. */
  method DrainTurn(mp: Port, ghost all: set<Port>) returns (more: bool)
    requires AllValid(all) && mp in all && Closed(all, mp.queue.nodes)
    modifies all, Queues(all), Pendings(all)
    ensures AllValid(all) && Pendings(all) <= old(Pendings(all))
    ensures more == (old(mp.queue.nodes) != [])
    ensures mp.queue.nodes == DrainOnce(old(mp.queue.nodes), mp)
    ensures forall p | p in all && p != mp ::
      p.gots == old(p.gots) && p.queue.nodes == old(p.queue.nodes) + Share(old(mp.queue.nodes), p)
  {
    var m := GetFrom(mp, all);
    if m == null {
      return false;
    }
    var _ := Reply(m, all);
    return true;
  }

  /** What a port gets of the first of some messages. */
  ghost function Share(q: seq<Message>, p: Port): seq<Message> {
    if q != [] && q[0].item.replyPort == p then [q[0]] else []
  }

  /** Others have received, behind what they had, their share of the messages taken so far. */
  ghost predicate Answered(all: set<Port>, mp: Port, before: map<Port, seq<Message>>, taken: seq<Message>)
    requires all <= before.Keys
    reads Queues(all)
  {
    forall p | p in all && p != mp :: p.queue.nodes == before[p] + RepliesTo(taken, p)
  }

  lemma OneMoreAnswered(had: seq<Message>, p: Port, taken: seq<Message>, q: seq<Message>)
    requires q != []
    ensures had + RepliesTo(taken, p) + Share(q, p) == had + RepliesTo(taken + [q[0]], p)
  {
    assert (taken + [q[0]])[..|taken|] == taken;
  }

  ghost predicate GotsKept(all: set<Port>, mp: Port, gots: map<Port, seq<Message>>)
    requires all <= gots.Keys
    reads all
  {
    forall p | p in all && p != mp :: p.gots == gots[p]
  }

  /** One turn, seen from the start of the loop: what was taken so far has been answered. */
  method AnswerTurn(mp: Port, ghost all: set<Port>, ghost before: map<Port, seq<Message>>,
                    ghost gots: map<Port, seq<Message>>, ghost taken: seq<Message>)
    returns (more: bool, ghost now: seq<Message>)
    requires AllValid(all) && mp in all && Closed(all, mp.queue.nodes)
    requires all <= before.Keys && Answered(all, mp, before, taken)
    requires all <= gots.Keys && GotsKept(all, mp, gots)
    modifies all, Queues(all), Pendings(all)
    ensures AllValid(all) && Pendings(all) <= old(Pendings(all))
    ensures more == (old(mp.queue.nodes) != []) && mp.queue.nodes == DrainOnce(old(mp.queue.nodes), mp)
    ensures now == if more then taken + [old(mp.queue.nodes)[0]] else taken
    ensures Answered(all, mp, before, now) && GotsKept(all, mp, gots)
  {
    ghost var q := mp.queue.nodes;
    now := taken;
    more := DrainTurn(mp, all);
    if more {
      now := taken + [q[0]];
      forall p | p in all && p != mp ensures p.queue.nodes == before[p] + RepliesTo(now, p) {
        OneMoreAnswered(before[p], p, taken, q);
      }
    }
  }

  method AnswerAll(mp: Port, ghost all: set<Port>,
                   ghost before: map<Port, seq<Message>>, ghost gots: map<Port, seq<Message>>)
    requires AllValid(all) && mp in all && Closed(all, mp.queue.nodes)
    requires forall m | m in mp.queue.nodes :: m.item.replyPort != mp
    requires all <= before.Keys && Answered(all, mp, before, [])
    requires all <= gots.Keys && GotsKept(all, mp, gots)
    modifies all, Queues(all), Pendings(all)
    ensures AllValid(all) && mp.queue.nodes == []
    ensures Answered(all, mp, before, old(mp.queue.nodes)) && GotsKept(all, mp, gots)
  {
    ghost var q := mp.queue.nodes;
    ghost var mem := Pendings(all);
    ghost var taken: seq<Message> := [];
    var more := true;
    while more
      invariant AllValid(all) && Pendings(all) <= mem
      invariant taken + mp.queue.nodes == q && (!more ==> mp.queue.nodes == [])
      invariant Answered(all, mp, before, taken) && GotsKept(all, mp, gots)
      decreases |mp.queue.nodes|, more
    {
      Remaining(q, taken, mp.queue.nodes, mp, all);
      more, taken := AnswerTurn(mp, all, before, gots, taken);
    }
    assert taken == q;
  }

  /** Of messages none of which names the port, those that are left lose their first at each turn. */
  lemma Remaining(q: seq<Message>, taken: seq<Message>, rest: seq<Message>, mp: Port, all: set<Port>)
    requires taken + rest == q && Closed(all, q) && forall m | m in q :: m.item.replyPort != mp
    ensures Closed(all, rest)
    ensures rest != [] ==> DrainOnce(rest, mp) == rest[1..] && taken + [rest[0]] + rest[1..] == q
  {
    assert forall m | m in rest :: m in q;
  }

  /** The loop of pth_msgport_destroy, when no pending message names the port itself. */
  method ReplyAll(mp: Port, ghost all: set<Port>)
    requires AllValid(all) && mp in all && Closed(all, mp.queue.nodes)
    requires forall m | m in mp.queue.nodes :: m.item.replyPort != mp
    modifies all, Queues(all), Pendings(all)
    ensures AllValid(all) && mp.queue.nodes == [] && mp.gots == mp.puts
    ensures forall p | p in all && p != mp ::
      p.gots == old(p.gots) && p.queue.nodes == old(p.queue.nodes) + RepliesTo(old(mp.queue.nodes), p)
  {
    ghost var before := map p | p in all :: p.queue.nodes;
    ghost var gots := map p | p in all :: p.gots;
    AnswerAll(mp, all, before, gots);
  }

  class Registry {
    var ports: seq<Port>

    ghost predicate Valid()
      reads this
    {
      Distinct(ports)
    }

    constructor()
      ensures Valid() && ports == []
    {
      ports := [];
    }

    method Create(name: string) returns (mp: Port)
      requires Valid()
      modifies this
      ensures Valid() && fresh(mp) && fresh(mp.queue) && mp.Valid() && mp.name == name && mp.queue.nodes == []
      ensures ports == old(ports) + [mp]
    {
      mp := new Port(name);
      ports := ports + [mp];
    }

    /** The oldest port of that name. */
    method Find(name: string) returns (mp: Port?)
      ensures mp == null ==> forall p | p in ports :: p.name != name
      ensures mp != null ==> exists k :: 0 <= k < |ports| && ports[k] == mp && mp.name == name
                                         && forall j | 0 <= j < k :: ports[j].name != name
    {
      for i := 0 to |ports|
        invariant forall j | 0 <= j < i :: ports[j].name != name
      {
        if ports[i].name == name {
          return ports[i];
        }
      }
      return null;
    }

    /** All pending messages go back to their reply ports, in order; those without one are dropped. */
    method Destroy(mp: Port, ghost k: nat, ghost all: set<Port>)
      requires Valid() && k < |ports| && ports[k] == mp && mp in all
      requires AllValid(all) && Closed(all, mp.queue.nodes)
      requires forall m | m in mp.queue.nodes :: m.item.replyPort != mp
      modifies this, all, Queues(all), Pendings(all)
      ensures AllValid(all) && mp.queue.nodes == [] && mp.gots == mp.puts
      ensures forall p | p in all && p != mp ::
        p.gots == old(p.gots) && p.queue.nodes == old(p.queue.nodes) + RepliesTo(old(mp.queue.nodes), p)
      ensures Valid() && ports == RemoveAt(old(ports), k)
    {
      ReplyAll(mp, all);
      Unregister(mp, k);
    }

    method Unregister(mp: Port, ghost k: nat)
      requires Valid() && k < |ports| && ports[k] == mp
      modifies this
      ensures Valid() && ports == RemoveAt(old(ports), k)
    {
      var i := 0;
      while ports[i] != mp
        invariant 0 <= i <= k
        decreases k - i
      {
        i := i + 1;
      }
      ports := RemoveAt(ports, i);
    }
  }
}
