/** The value-level behaviour of one Dispatcher (server/server.js:197-230): a FIFO queue of
    messages and at most one waiting long-poll connection. Each operation yields the new
    mailbox and the completions it writes, in the order it writes them. */
module Mailbox {
  import opened Wire

  datatype Box = Box(queue: seq<Body>, client: Option<ConnId>)

  datatype Step = Step(next: Box, sent: seq<Completion>)

  /** A freshly constructed Dispatcher. */
  const Idle: Box := Box([], None)

  /** The resting-state invariant: a waiting client implies an empty queue. */
  predicate Settled(b: Box) {
    b.client.Some? ==> b.queue == []
  }

  /** `process()`: if a client waits and a message is queued, the oldest message goes to
      that client and the slot is cleared. */
  function Process(b: Box): (r: Step)
    ensures Settled(r.next)
    ensures DeliveredBodies(r.sent) + r.next.queue == b.queue
    ensures Settled(b) ==> r == Step(b, [])
    ensures !Settled(b) ==> |r.sent| == 1 && r.sent[0].conn == b.client.value
                            && r.sent[0].response.Delivered? && r.next.client.None?
  {
    if b.client.Some? && |b.queue| > 0 then
      Step(Box(b.queue[1..], None), [Completion(b.client.value, Delivered(b.queue[0]))])
    else
      Step(b, [])
  }

  /** `end()`: completes the waiting client with an empty body, but keeps it in the slot. */
  function End(b: Box): (r: Step)
    ensures r.next == b
    ensures b.client.None? ==> r.sent == []
    ensures b.client.Some? ==> r.sent == [Completion(b.client.value, EndedEmpty)]
  {
    Step(b, if b.client.Some? then [Completion(b.client.value, EndedEmpty)] else [])
  }

  /** `clearMessages()`: drops the backlog, leaves the slot alone. */
  function ClearMessages(b: Box): (r: Box)
    ensures r.queue == [] && r.client == b.client && Settled(r)
  {
    b.(queue := [])
  }

  /** `setClient(c)`: cancels any earlier waiting client, then either hands `c` the oldest
      message or parks `c` in the slot. */
  function SetClient(b: Box, c: ConnId): (r: Step)
    ensures Settled(r.next)
    ensures |b.queue| > 0 ==> r.next == Box(b.queue[1..], None) && |r.sent| > 0
                              && r.sent[|r.sent| - 1] == Completion(c, Delivered(b.queue[0]))
    ensures b.queue == [] ==> r.next == Box([], Some(c))
                              && forall x | x in r.sent :: x.response == EndedEmpty
    ensures b.client.Some? ==> |r.sent| > 0 && r.sent[0] == Completion(b.client.value, EndedEmpty)
    ensures |r.sent| == (if b.client.Some? then 1 else 0) + (if b.queue != [] then 1 else 0)
  {
    var e := End(b);
    var p := Process(e.next.(client := Some(c)));
    Step(p.next, e.sent + p.sent)
  }

  /** `addMessage(m)`: appends `m`, then delivers the oldest message if a client waits. */
  function AddMessage(b: Box, m: Body): (r: Step)
    ensures Settled(r.next)
    ensures b.client.None? ==> r == Step(Box(b.queue + [m], None), [])
    ensures b.client.Some? ==> r.next == Box((b.queue + [m])[1..], None)
                               && r.sent == [Completion(b.client.value, Delivered((b.queue + [m])[0]))]
    ensures Settled(b) && b.client.Some? ==>
              r == Step(Idle, [Completion(b.client.value, Delivered(m))])
  {
    Process(b.(queue := b.queue + [m]))
  }

  /** `setClient(c)` on a mailbox at rest: with a backlog, `c` is answered with the oldest
      message at once; otherwise `c` waits, and only an earlier waiting client is ended. */
  lemma AttachToSettled(b: Box, c: ConnId)
    requires Settled(b)
    ensures b.queue != [] ==>
              SetClient(b, c) == Step(Box(b.queue[1..], None), [Completion(c, Delivered(b.queue[0]))])
    ensures b.queue == [] ==>
              SetClient(b, c) == Step(Box([], Some(c)),
                                      if b.client.Some? then [Completion(b.client.value, EndedEmpty)] else [])
  {
    if b.queue != [] {
      assert b.client.None?;
      assert End(b).sent == [];
    }
  }

  // ---------------------------------------------------------------------------------------
  // Runs of operations on one Dispatcher

  /** The calls a Dispatcher receives. A bare `end()` is not among them: the relay calls it
      on its own only on a mobile Dispatcher that `/mobile/init` then discards. */
  datatype Op = Add(m: Body) | Attach(c: ConnId) | Clear

  function Apply(b: Box, op: Op): Step {
    match op
    case Add(m) => AddMessage(b, m)
    case Attach(c) => SetClient(b, c)
    case Clear => Step(ClearMessages(b), [])
  }

  /** The effect of performing `ops` one after another. */
  function Run(b: Box, ops: seq<Op>): Step
    decreases |ops|
  {
    if ops == [] then Step(b, [])
    else
      var s := Apply(b, ops[0]);
      var t := Run(s.next, ops[1..]);
      Step(t.next, s.sent + t.sent)
  }

  /** The messages `ops` hand to `addMessage`, in call order. */
  function Added(ops: seq<Op>): seq<Body> {
    if ops == [] then [] else (if ops[0].Add? then [ops[0].m] else []) + Added(ops[1..])
  }

  /** No `clearMessages()` among `ops`. */
  predicate NoClear(ops: seq<Op>) {
    forall i | 0 <= i < |ops| :: !ops[i].Clear?
  }

  lemma {:induction false} ApplyConserves(b: Box, op: Op)
    requires !op.Clear?
    ensures DeliveredBodies(Apply(b, op).sent) + Apply(b, op).next.queue
            == b.queue + (if op.Add? then [op.m] else [])
  {
    match op
    case Add(m) =>
      var bm := b.(queue := b.queue + [m]);
      assert Apply(b, op) == Process(bm);
    case Attach(c) =>
      var e := End(b);
      var p := Process(e.next.(client := Some(c)));
      assert DeliveredBodies(e.sent) == [];
      DeliveredBodiesAppend(e.sent, p.sent);
  }

  lemma ConcatShuffle<T>(ds: seq<T>, dt: seq<T>, tq: seq<T>, sq: seq<T>, rest: seq<T>, bq: seq<T>, front: seq<T>)
    requires dt + tq == sq + rest
    requires ds + sq == bq + front
    ensures (ds + dt) + tq == bq + (front + rest)
  {
    calc {
      (ds + dt) + tq;
      ds + (dt + tq);
      ds + (sq + rest);
      (ds + sq) + rest;
      (bq + front) + rest;
    }
  }

  lemma NoClearTail(ops: seq<Op>)
    requires ops != [] && NoClear(ops)
    ensures NoClear(ops[1..]) && !ops[0].Clear?
  {
    forall i | 0 <= i < |ops[1..]| ensures !ops[1..][i].Clear? { assert ops[1..][i] == ops[i + 1]; }
  }

  /** FIFO delivery: without `clearMessages()`, every message ever queued is either
      delivered or still queued, and deliveries happen in exactly the order of the queue
      followed by the `addMessage` calls. Nothing is lost, duplicated or reordered. */
  lemma {:induction false} RunIsFifo(b: Box, ops: seq<Op>)
    requires NoClear(ops)
    ensures DeliveredBodies(Run(b, ops).sent) + Run(b, ops).next.queue == b.queue + Added(ops)
    decreases |ops|
  {
    if ops != [] {
      var s := Apply(b, ops[0]);
      var t := Run(s.next, ops[1..]);
      NoClearTail(ops);
      ApplyConserves(b, ops[0]);
      RunIsFifo(s.next, ops[1..]);
      DeliveredBodiesAppend(s.sent, t.sent);
      ConcatShuffle(DeliveredBodies(s.sent), DeliveredBodies(t.sent), t.next.queue, s.next.queue,
                    Added(ops[1..]), b.queue, if ops[0].Add? then [ops[0].m] else []);
    }
  }

  /** Every operation keeps the resting-state invariant, so a run from a settled mailbox
      never ends with a waiting client beside a non-empty queue. */
  lemma {:induction false} RunSettled(b: Box, ops: seq<Op>)
    requires Settled(b)
    ensures Settled(Run(b, ops).next)
    decreases |ops|
  {
    if ops != [] {
      RunSettled(Apply(b, ops[0]).next, ops[1..]);
    }
  }

  /** One `setClient` per connection in `cs`, in order. */
  function Attaches(cs: seq<ConnId>): (ops: seq<Op>)
    ensures |ops| == |cs| && forall i | 0 <= i < |cs| :: ops[i] == Attach(cs[i])
  {
    if cs == [] then [] else [Attach(cs[0])] + Attaches(cs[1..])
  }

  /** The completions that hand `q[i]` to `cs[i]`. */
  function Deliveries(cs: seq<ConnId>, q: seq<Body>): (r: seq<Completion>)
    requires |cs| == |q|
    ensures |r| == |cs| && forall i | 0 <= i < |cs| :: r[i] == Completion(cs[i], Delivered(q[i]))
  {
    if cs == [] then [] else [Completion(cs[0], Delivered(q[0]))] + Deliveries(cs[1..], q[1..])
  }

  /** Clients that attach one after another to a mailbox with a backlog and no waiting
      client receive the backlog in queue order, one message each. */
  lemma {:induction false} AttachInOrder(q: seq<Body>, cs: seq<ConnId>)
    requires |cs| <= |q|
    ensures Run(Box(q, None), Attaches(cs)) == Step(Box(q[|cs|..], None), Deliveries(cs, q[..|cs|]))
  {
    if cs != [] {
      var ops := Attaches(cs);
      assert ops[1..] == Attaches(cs[1..]);
      var s := SetClient(Box(q, None), cs[0]);
      assert s == Step(Box(q[1..], None), [Completion(cs[0], Delivered(q[0]))]);
      AttachInOrder(q[1..], cs[1..]);
      assert q[1..][|cs| - 1..] == q[|cs|..];
      assert q[1..][..|cs| - 1] == q[..|cs|][1..];
    }
  }

  lemma RunCons(b: Box, op: Op, ops: seq<Op>)
    ensures Run(b, [op] + ops)
            == Step(Run(Apply(b, op).next, ops).next, Apply(b, op).sent + Run(Apply(b, op).next, ops).sent)
  {
    assert ([op] + ops)[1..] == ops;
  }

  /** With no client waiting, `addMessage` only appends. */
  lemma AddsWhileIdle(q: seq<Body>, a: Body, b: Body, ops: seq<Op>)
    ensures Run(Box(q, None), [Add(a), Add(b)] + ops) == Run(Box(q + [a, b], None), ops)
  {
    assert AddMessage(Box(q, None), a) == Step(Box(q + [a], None), []);
    assert AddMessage(Box(q + [a], None), b) == Step(Box(q + [a, b], None), []);
    assert [Add(a), Add(b)] + ops == [Add(a)] + ([Add(b)] + ops);
    RunCons(Box(q, None), Add(a), [Add(b)] + ops);
    RunCons(Box(q + [a], None), Add(b), ops);
  }

  /** If `addMessage(a)` and then `addMessage(b)` happen while no client waits, the client
      that attaches once the earlier backlog is gone receives `a`, and the next one `b`. */
  lemma TwoMessagesInOrder(q: seq<Body>, a: Body, b: Body, cs: seq<ConnId>)
    requires |cs| == |q| + 2
    ensures var r := Run(Box(q, None), [Add(a), Add(b)] + Attaches(cs));
            r == Step(Idle, Deliveries(cs, q + [a, b]))
            && r.sent[|q|] == Completion(cs[|q|], Delivered(a))
            && r.sent[|q| + 1] == Completion(cs[|q| + 1], Delivered(b))
  {
    var q2 := q + [a, b];
    AddsWhileIdle(q, a, b, Attaches(cs));
    AttachInOrder(q2, cs);
    assert q2[..|cs|] == q2;
    assert q2[|cs|..] == [];
  }
}
