/** The dispatch queue as a value: one poll, and whole traces of submissions and polls
    run one after another.  The relay's methods are proved against `Poll`; the lemmas
    here give the FIFO and exactly-once guarantees of any trace. */
module Dispatch {
  import opened Wrappers
  import opened Commands

  /** The commands a poll result hands out: none, or the one it carries. */
  function Taken(o: Option<Command>): seq<Command>
  {
    if o.Some? then [o.value] else []
  }

  /** `get_next_command`: the head and the rest of the queue, or `None` and the queue
      unchanged when it is empty. */
  function Poll(q: seq<Command>): (r: (Option<Command>, seq<Command>))
    ensures r.0 == None <==> q == []
    ensures Taken(r.0) + r.1 == q
  {
    if q == [] then (None, []) else (Some(q[0]), q[1..])
  }

  /** One request reaching the queue: a submission of a command, or a poll. */
  datatype Op = Submit(cmd: Command) | PollOnce

  /** One request: what it answers (a poll answers once, a submission not at all) and
      the queue it leaves. */
  function Step(q: seq<Command>, op: Op): (seq<Option<Command>>, seq<Command>)
  {
    match op
    case Submit(c) => ([], q + [c])
    case PollOnce => ([Poll(q).0], Poll(q).1)
  }

  /** The poll results of a trace run from queue `q`, and the queue it leaves. */
  function Run(q: seq<Command>, ops: seq<Op>): (seq<Option<Command>>, seq<Command>)
    decreases |ops|
  {
    if ops == [] then ([], q)
    else
      var first := Step(q, ops[0]);
      var rest := Run(first.1, ops[1..]);
      (first.0 + rest.0, rest.1)
  }

  /** The command one request submits, if any. */
  function SubmittedBy(op: Op): seq<Command>
  {
    if op.Submit? then [op.cmd] else []
  }

  /** The commands a trace submits, in order. */
  function Submitted(ops: seq<Op>): seq<Command>
  {
    if ops == [] then [] else SubmittedBy(ops[0]) + Submitted(ops[1..])
  }

  /** The commands a run of polls handed out, in order. */
  function Delivered(outs: seq<Option<Command>>): seq<Command>
  {
    if outs == [] then [] else Taken(outs[0]) + Delivered(outs[1..])
  }

  lemma {:induction false} DeliveredConcat(a: seq<Option<Command>>, b: seq<Option<Command>>)
    ensures Delivered(a + b) == Delivered(a) + Delivered(b)
    decreases |a|
  {
    if a == [] {
      assert a + b == b;
    } else {
      assert (a + b)[0] == a[0];
      assert (a + b)[1..] == a[1..] + b;
      DeliveredConcat(a[1..], b);
    }
  }

  /** One step conserves the queue: what it hands out, then what it leaves queued, is
      the queue it found followed by what it submits. */
  lemma StepConserves(q: seq<Command>, op: Op)
    ensures Delivered(Step(q, op).0) + Step(q, op).1 == q + SubmittedBy(op)
  {
    if op.PollOnce? {
      assert Delivered([Poll(q).0]) == Taken(Poll(q).0) + Delivered([]);
    }
  }

  /** Exactly-once, in order: what the polls of any trace hand out, followed by what is
      left queued, is the starting queue followed by everything submitted.  No command is
      lost, duplicated, invented or overtaken. */
  lemma {:induction false} RunConserves(q: seq<Command>, ops: seq<Op>)
    ensures Delivered(Run(q, ops).0) + Run(q, ops).1 == q + Submitted(ops)
    decreases |ops|
  {
    if ops != [] {
      var first := Step(q, ops[0]);
      var rest := Run(first.1, ops[1..]);
      StepConserves(q, ops[0]);
      RunConserves(first.1, ops[1..]);
      DeliveredConcat(first.0, rest.0);
      Regroup(Delivered(first.0), Delivered(rest.0), rest.1, first.1, q, SubmittedBy(ops[0]), Submitted(ops[1..]));
    }
  }

  /** Chaining two conservation facts that share the queue `f` in the middle. */
  lemma Regroup(d1: seq<Command>, d2: seq<Command>, r: seq<Command>, f: seq<Command>,
                q: seq<Command>, s1: seq<Command>, s2: seq<Command>)
    requires d1 + f == q + s1 && d2 + r == f + s2
    ensures d1 + d2 + r == q + (s1 + s2)
  {
    calc {
      d1 + d2 + r;
      d1 + (d2 + r);
      d1 + (f + s2);
      (d1 + f) + s2;
      (q + s1) + s2;
    }
  }

  /** Hence the polls hand out a prefix of the starting queue followed by the
      submissions: strict global FIFO, whatever the targets. */
  lemma DeliveredInSubmissionOrder(q: seq<Command>, ops: seq<Op>)
    ensures Delivered(Run(q, ops).0) <= q + Submitted(ops)
  {
    RunConserves(q, ops);
  }

  /** Running two traces one after the other is running their concatenation. */
  lemma {:induction false} RunConcat(q: seq<Command>, a: seq<Op>, b: seq<Op>)
    ensures Run(q, a + b).0 == Run(q, a).0 + Run(Run(q, a).1, b).0
    ensures Run(q, a + b).1 == Run(Run(q, a).1, b).1
    decreases |a|
  {
    if a == [] {
      assert a + b == b;
    } else {
      assert (a + b)[0] == a[0];
      assert (a + b)[1..] == a[1..] + b;
      var first := Step(q, a[0]);
      RunConcat(first.1, a[1..], b);
      assert Run(q, a + b).0 == first.0 + Run(first.1, a[1..] + b).0;
      assert Run(q, a).0 == first.0 + Run(first.1, a[1..]).0;
    }
  }

  function Submits(xs: seq<Command>): seq<Op>
  {
    if xs == [] then [] else [Submit(xs[0])] + Submits(xs[1..])
  }

  function Polls(n: nat): seq<Op>
  {
    if n == 0 then [] else [PollOnce] + Polls(n - 1)
  }

  function Somes(xs: seq<Command>): seq<Option<Command>>
  {
    if xs == [] then [] else [Some(xs[0])] + Somes(xs[1..])
  }

  function Nones(n: nat): seq<Option<Command>>
  {
    if n == 0 then [] else [None] + Nones(n - 1)
  }

  /** Submitting commands appends them at the tail and answers nothing. */
  lemma {:induction false} RunSubmits(q: seq<Command>, xs: seq<Command>)
    ensures Run(q, Submits(xs)) == ([], q + xs)
    decreases |xs|
  {
    if xs == [] {
      assert q + xs == q;
    } else {
      var ops := Submits(xs);
      assert ops[0] == Submit(xs[0]) && ops[1..] == Submits(xs[1..]);
      assert Step(q, ops[0]) == ([], q + [xs[0]]);
      RunSubmits(q + [xs[0]], xs[1..]);
      assert q + [xs[0]] + xs[1..] == q + xs;
      var none: seq<Option<Command>> := [];
      assert none + none == none;
      assert Run(q, ops) == (none + none, q + xs);
    }
  }

  /** Polling an empty queue answers `None` every time and leaves it empty. */
  lemma {:induction false} PollsOnEmpty(n: nat)
    ensures Run([], Polls(n)) == (Nones(n), [])
  {
    if n > 0 {
      var ops := Polls(n);
      assert ops[0] == PollOnce && ops[1..] == Polls(n - 1);
      PollsOnEmpty(n - 1);
    }
  }

  /** Polling a queue `|q| + k` times hands out its elements head first, then `None`
      for each poll beyond them. */
  lemma {:induction false} PollsDrain(q: seq<Command>, k: nat)
    ensures Run(q, Polls(|q| + k)) == (Somes(q) + Nones(k), [])
    decreases |q|
  {
    if q == [] {
      PollsOnEmpty(k);
      assert Somes(q) + Nones(k) == Nones(k);
    } else {
      var ops := Polls(|q| + k);
      assert ops[0] == PollOnce && ops[1..] == Polls(|q[1..]| + k);
      PollsDrain(q[1..], k);
      assert Somes(q) + Nones(k) == [Some(q[0])] + (Somes(q[1..]) + Nones(k));
    }
  }

  /** Submitting `xs` to queue `q` and then polling until one poll past the end hands
      out `q` and then `xs` in order, and then `None`. */
  lemma FifoAfterSubmits(q: seq<Command>, xs: seq<Command>)
    ensures Run(q, Submits(xs) + Polls(|q| + |xs| + 1)) == (Somes(q + xs) + [None], [])
  {
    RunConcat(q, Submits(xs), Polls(|q| + |xs| + 1));
    RunSubmits(q, xs);
    PollsDrain(q + xs, 1);
    assert Nones(1) == [None];
    var none: seq<Option<Command>> := [];
    assert none + (Somes(q + xs) + [None]) == Somes(q + xs) + [None];
  }

  /** Enqueue A, B, C on an empty queue; three polls yield A, B, C and a fourth none. */
  lemma FifoExample(a: Command, b: Command, c: Command)
    ensures Run([], [Submit(a), Submit(b), Submit(c), PollOnce, PollOnce, PollOnce, PollOnce]).0
              == [Some(a), Some(b), Some(c), None]
  {
    FifoAfterSubmits([], [a, b, c]);
    assert [a, b, c][1..] == [b, c] && [b, c][1..] == [c] && [c][1..] == [];
    assert Submits([c]) == [Submit(c)];
    assert Submits([b, c]) == [Submit(b), Submit(c)];
    assert Submits([a, b, c]) == [Submit(a), Submit(b), Submit(c)];
    assert Polls(2) == [PollOnce, PollOnce];
    assert Polls(4) == [PollOnce, PollOnce, PollOnce, PollOnce];
    assert Somes([c]) == [Some(c)];
    assert Somes([b, c]) == [Some(b), Some(c)];
    assert Somes([a, b, c]) == [Some(a), Some(b), Some(c)];
    assert [Submit(a), Submit(b), Submit(c), PollOnce, PollOnce, PollOnce, PollOnce]
        == Submits([a, b, c]) + Polls(4);
    assert [] + [a, b, c] == [a, b, c];
    assert Somes([a, b, c]) + [None] == [Some(a), Some(b), Some(c), None];
  }
}
