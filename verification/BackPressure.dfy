/**
 * Admission to a job stream (`job_stream_pressure` in src/kiroku/queue.py and the pre-flight check in
 * src/kiroku/dispatch.py): what the pressure tells about the backlog, and when an accepted batch loses a job.
 */
module BackPressure {
  import opened Basics
  import opened JobQueue

  /** `max(0, xlen - entries_read)`. */
  function Pressure(s: Stream): nat {
    if Length(s) > s.entriesRead then Length(s) - s.entriesRead else 0
  }

  function HighWater(maxLen: nat, ratio: real): int {
    (maxLen as real * ratio).Floor
  }

  /** The mark is the ratio of the limit, rounded down. */
  lemma HighWaterIs(maxLen: nat, ratio: real)
    ensures HighWater(maxLen, ratio) as real <= maxLen as real * ratio < HighWater(maxLen, ratio) as real + 1.0
  {
  }

  predicate Refused(s: Stream, incoming: nat, maxLen: nat, ratio: real) {
    Pressure(s) + incoming > HighWater(maxLen, ratio)
  }

  /** The pressure never exceeds the true backlog, so a refusal is always justified; it is the backlog
      exactly when nothing waits or no message that was read has left the stream. */
  lemma PressureBound(s: Stream, incoming: nat, maxLen: nat, ratio: real)
    requires Valid(s)
    ensures Pressure(s) <= |s.waiting|
    ensures Pressure(s) == |s.waiting| <==> s.waiting == [] || Gone(s) == 0
    ensures Refused(s, incoming, maxLen, ratio) ==> |s.waiting| + incoming > HighWater(maxLen, ratio)
  {
  }

  function Publishes(ops: seq<Op>): nat {
    if ops == [] then 0 else Publishes(ops[..|ops| - 1]) + if ops[|ops| - 1].Publish? then 1 else 0
  }

  lemma {:induction false} PublishesMonotone(ops: seq<Op>, j: nat)
    requires j <= |ops|
    ensures Publishes(ops[..j]) <= Publishes(ops)
  {
    if j < |ops| {
      PublishesMonotone(ops[..|ops| - 1], j);
      assert ops[..|ops| - 1][..j] == ops[..j];
    } else {
      assert ops[..j] == ops;
    }
  }

  lemma {:induction false} Backlog(ss: seq<Stream>, ops: seq<Op>, i: nat)
    requires Runs(ss, ops) && i < |ss|
    ensures |ss[i].waiting| <= |ss[0].waiting| + Publishes(ops[..i])
  {
    if i > 0 {
      Backlog(ss, ops, i - 1);
      RunsFollow(ss, ops, i - 1);
      PublishesStep(ops, i - 1);
    }
  }

  lemma PublishesStep(ops: seq<Op>, i: nat)
    requires i < |ops|
    ensures Publishes(ops[..i + 1]) == Publishes(ops[..i]) + if ops[i].Publish? then 1 else 0
  {
    assert ops[..i + 1][..i] == ops[..i];
  }

  /**
   * An accepted batch on a stream whose pressure is exact: while its messages are published, amid any
   * reads and deletes, the backlog stays within the high-water mark and trimming drops no waiting message.
   */
  lemma AcceptedBatchFits(ss: seq<Stream>, ops: seq<Op>, i: nat, incoming: nat, maxLen: nat, ratio: real)
    requires Runs(ss, ops) && i < |ops| && 0.0 <= ratio <= 1.0
    requires !Refused(ss[0], incoming, maxLen, ratio) && Publishes(ops) <= incoming
    requires ss[0].waiting == [] || Gone(ss[0]) == 0
    requires TrimAllowed(ss[i], ops[i], maxLen)
    ensures |ss[i].waiting| <= |ss[0].waiting| + incoming <= HighWater(maxLen, ratio) <= maxLen
    ensures !Loses(ss, ops, i)
  {
    PressureBound(ss[0], incoming, maxLen, ratio);
    HighWaterBound(maxLen, ratio);
    SmallBacklogFits(ss, ops, i, incoming, maxLen);
  }

  // ----- exactly when a waiting message can be lost -----

  /** Step i is a publish that drops a message no worker has been given. */
  ghost predicate Loses(ss: seq<Stream>, ops: seq<Op>, i: nat)
    requires i < |ops| && |ss| == |ops| + 1
  {
    ops[i].Publish? && ss[i + 1].waiting != ss[i].waiting + [Entry(ss[i].lastId + 1, ops[i].run)]
  }

  lemma SmallBacklogFits(ss: seq<Stream>, ops: seq<Op>, i: nat, incoming: nat, maxLen: nat)
    requires Runs(ss, ops) && i < |ops|
    requires |ss[0].waiting| + incoming <= maxLen && Publishes(ops) <= incoming
    requires TrimAllowed(ss[i], ops[i], maxLen)
    ensures |ss[i].waiting| <= |ss[0].waiting| + incoming
    ensures !Loses(ss, ops, i)
  {
    Backlog(ss, ops, i);
    PublishesMonotone(ops, i);
    if ops[i].Publish? {
      assert RunsAt(ss, ops, i);
      PublishesMonotone(ops, i + 1);
      PublishesStep(ops, i);
      TrimSpares(ss[i], ops[i], maxLen);
    }
  }

  /** Trimming spares the waiting messages while they are fewer than the limit. */
  lemma TrimSpares(s: Stream, op: Op, maxLen: nat)
    requires op.Publish? && Possible(s, op) && TrimAllowed(s, op, maxLen) && |s.waiting| < maxLen
    ensures Apply(s, op).waiting == s.waiting + [Entry(s.lastId + 1, op.run)]
  {
    assert op.dropped <= |s.read|;
  }

  /** Publishing n messages without any trimming. */
  lemma {:induction false} PublishMany(s: Stream, n: nat, maxLen: nat) returns (ss: seq<Stream>, ops: seq<Op>)
    requires Valid(s)
    ensures |ops| == n && Runs(ss, ops) == true && ss[0] == s
    ensures forall i | 0 <= i < n :: ops[i] == Publish(None, 0)
    ensures ss[n].read == s.read && |ss[n].waiting| == |s.waiting| + n
  {
    if n == 0 {
      ss, ops := [s], [];
    } else {
      ss, ops := PublishMany(s, n - 1, maxLen);
      ss, ops := OneMore(ss, ops, Publish(None, 0));
    }
  }

  lemma OneMore(ss: seq<Stream>, ops: seq<Op>, op: Op) returns (ss': seq<Stream>, ops': seq<Op>)
    requires Runs(ss, ops) == true && Possible(ss[|ops|], op)
    ensures ops' == ops + [op] && ss' == ss + [Apply(ss[|ops|], op)] && Runs(ss', ops') == true
  {
    ss', ops' := ss + [Apply(ss[|ops|], op)], ops + [op];
    forall i | 0 <= i < |ops'| ensures RunsAt(ss', ops', i) == true {
      if i < |ops| {
        assert RunsAt(ss, ops, i);
        assert ss'[i] == ss[i] && ss'[i + 1] == ss[i + 1] && ops'[i] == ops[i];
      }
    }
  }

  /** A list of operations from s with at most `incoming` publishes, each trimming no more than it may, that drops a
      waiting message in step i. */
  ghost predicate Losing(s: Stream, ss: seq<Stream>, ops: seq<Op>, i: nat, incoming: nat, maxLen: nat) {
    && Runs(ss, ops) && ss[0] == s && Publishes(ops) <= incoming && i < |ops|
    && (forall k: nat | k < |ops| :: TrimAllowed(ss[k], ops[k], maxLen))
    && Loses(ss, ops, i)
  }

  lemma {:induction false} AllPublishes(ops: seq<Op>)
    requires forall i | 0 <= i < |ops| :: ops[i].Publish?
    ensures Publishes(ops) == |ops|
  {
    if ops != [] {
      AllPublishes(ops[..|ops| - 1]);
    }
  }

  /** With more than fits, `incoming` publishes and nothing else can lose a waiting message. */
  lemma LossHappens(s: Stream, incoming: nat, maxLen: nat) returns (ss: seq<Stream>, ops: seq<Op>)
    requires Valid(s) && maxLen >= 1 && incoming >= 1 && |s.waiting| + incoming > maxLen
    ensures |ops| == incoming && (forall i | 0 <= i < |ops| :: ops[i].Publish?)
    ensures Losing(s, ss, ops, incoming - 1, incoming, maxLen)
  {
    var n := incoming - 1;
    ss, ops := PublishMany(s, n, maxLen);
    var last := ss[n];
    var op := Publish(None, |last.read| + 1);
    assert TrimAllowed(last, op, maxLen) && Possible(last, op);
    var before := ops;
    ss, ops := OneMore(ss, ops, op);
    assert ops[n] == op && ss[n] == last && ss[n + 1] == Apply(last, op);
    assert |Apply(last, op).waiting| == |last.waiting|;
    forall i | 0 <= i < |ops| ensures ops[i].Publish? && TrimAllowed(ss[i], ops[i], maxLen) {
      assert i < n ==> ops[i] == before[i];
    }
    AllPublishes(ops);
  }

  /** A batch can cost a waiting message exactly when the backlog and the batch do not fit the stream together. */
  lemma LossIff(s: Stream, incoming: nat, maxLen: nat)
    requires Valid(s) && maxLen >= 1
    ensures (exists ss, ops, i :: Losing(s, ss, ops, i, incoming, maxLen))
      <==> incoming >= 1 && |s.waiting| + incoming > maxLen
  {
    if incoming >= 1 && |s.waiting| + incoming > maxLen {
      var ss, ops := LossHappens(s, incoming, maxLen);
    }
    forall ss, ops, i | Losing(s, ss, ops, i, incoming, maxLen)
      ensures incoming >= 1 && |s.waiting| + incoming > maxLen
    {
      LossNeeds(s, ss, ops, i, incoming, maxLen);
    }
  }

  lemma LossNeeds(s: Stream, ss: seq<Stream>, ops: seq<Op>, i: nat, incoming: nat, maxLen: nat)
    requires Losing(s, ss, ops, i, incoming, maxLen)
    ensures incoming >= 1 && |s.waiting| + incoming > maxLen
  {
    PublishesStep(ops, i);
    PublishesMonotone(ops, i + 1);
    if |s.waiting| + incoming <= maxLen {
      SmallBacklogFits(ss, ops, i, incoming, maxLen);
    }
  }

  /** The pre-flight check passes exactly when the batch itself fits below the mark and the messages that were read
      and are gone hide enough of the backlog. */
  lemma AcceptedIff(s: Stream, incoming: nat, maxLen: nat, ratio: real)
    requires Valid(s)
    ensures !Refused(s, incoming, maxLen, ratio) <==>
      incoming <= HighWater(maxLen, ratio) && |s.waiting| + incoming <= HighWater(maxLen, ratio) + Gone(s)
  {
  }

  /** So an accepted batch can lose a waiting message exactly when it overfills the stream while as many messages as
      the overfill beyond the mark have been read and are gone. */
  lemma AcceptedMayLose(s: Stream, incoming: nat, maxLen: nat, ratio: real)
    requires Valid(s) && maxLen >= 1
    ensures !Refused(s, incoming, maxLen, ratio) && (exists ss, ops, i :: Losing(s, ss, ops, i, incoming, maxLen))
      <==> 1 <= incoming <= HighWater(maxLen, ratio) && maxLen < |s.waiting| + incoming <= HighWater(maxLen, ratio) + Gone(s)
  {
    LossIff(s, incoming, maxLen);
    AcceptedIff(s, incoming, maxLen, ratio);
  }

  lemma HighWaterBound(maxLen: nat, ratio: real)
    requires 0.0 <= ratio <= 1.0
    ensures 0 <= HighWater(maxLen, ratio) <= maxLen
  {
    assert maxLen as real * ratio <= maxLen as real;
    assert maxLen as real * ratio >= 0.0;
  }

  lemma PublishPlain(s: Stream, run: RunId)
    ensures Apply(s, Publish(Some(run), 0))
         == Stream(s.read, s.waiting + [Entry(s.lastId + 1, Some(run))], s.lastId + 1, s.lastDelivered, s.entriesRead)
  {
    assert s.read[0..] == s.read;
  }

  lemma ReadOnly(s: Stream, e: Entry)
    requires s.waiting == [e] && s.read == []
    ensures Apply(s, Read(1)) == Stream([e], [], s.lastId, e.id, s.entriesRead + 1)
  {
    assert Batch(s, 1) == [e];
    assert [] + [e] == [e] && [e][1..] == [];
  }

  lemma DeleteOnly(s: Stream, e: Entry)
    requires s.read == [e] && s.waiting == []
    ensures Apply(s, Delete({e.id})) == s.(read := [])
  {
    assert [e][..0] == [];
  }

  lemma UnitMark()
    ensures HighWater(1, 1.0) == 1
  {
  }

  /** A message published, read and acknowledged, then another published, then a third. */
  function BlindOps(): seq<Op> {
    [Publish(Some(1), 0), Read(1), Delete({1}), Publish(Some(2), 0), Publish(Some(3), 1)]
  }

  lemma BlindStart() returns (ss: seq<Stream>, ops: seq<Op>)
    ensures Runs(ss, ops) == true && |ops| == 2 && ops == [Publish(Some(1), 0), Read(1)]
    ensures ss[0] == EMPTY && ss[2] == Stream([Entry(1, Some(1))], [], 1, 1, 1)
  {
    var e := Entry(1, Some(1));
    PublishPlain(EMPTY, 1);
    assert [] + [e] == [e];
    ss, ops := OneMore([EMPTY], [], Publish(Some(1), 0));
    ReadOnly(ss[1], e);
    ss, ops := OneMore(ss, ops, Read(1));
  }

  lemma BlindMiddle() returns (ss: seq<Stream>, ops: seq<Op>)
    ensures Runs(ss, ops) == true && |ops| == 4 && ops == BlindOps()[..4]
    ensures ss[0] == EMPTY && ss[4] == Stream([], [Entry(2, Some(2))], 2, 1, 1)
  {
    ss, ops := BlindStart();
    DeleteOnly(ss[2], Entry(1, Some(1)));
    ss, ops := OneMore(ss, ops, Delete({1}));
    PublishPlain(ss[3], 2);
    ss, ops := OneMore(ss, ops, Publish(Some(2), 0));
  }

  /** Acknowledged messages make the pressure blind: before the last publish it reads 0, a batch of one is accepted,
      and the publish, trimming no more than it may, drops a message no worker ever saw. */
  lemma BlindPressureLosesJobs() returns (ss: seq<Stream>, ops: seq<Op>)
    ensures ops == BlindOps() && Runs(ss, ops) == true && ss[0] == EMPTY
    ensures ss[4].waiting == [Entry(2, Some(2))] && ss[5].waiting == [Entry(3, Some(3))]
    ensures Pressure(ss[4]) == 0 && !Refused(ss[4], 1, 1, 1.0) && TrimAllowed(ss[4], ops[4], 1)
    ensures Loses(ss, ops, 4)
  {
    ss, ops := BlindMiddle();
    UnitMark();
    var last := ss[4];
    DropOnly(last, Entry(2, Some(2)), 3);
    ss, ops := OneMore(ss, ops, Publish(Some(3), 1));
  }

  lemma DropOnly(s: Stream, e: Entry, run: RunId)
    requires s.waiting == [e] && s.read == []
    ensures Apply(s, Publish(Some(run), 1)).waiting == [Entry(s.lastId + 1, Some(run))]
  {
    assert [e][1..] == [];
  }
}
