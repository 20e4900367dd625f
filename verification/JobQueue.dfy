/**
 * One job stream with its consumer group (src/kiroku/queue.py): a Redis stream reduced to its entries in
 * id order, the id last handed to the group and the number of entries the group has read.
 */
module JobQueue {
  import opened Basics

  type MsgId = nat
  type RunId = int

  /** A message; `run` is the run id its payload decodes to, if it decodes. */
  datatype Entry = Entry(id: MsgId, run: Option<RunId>)

  /**
   * The group's cursor `lastDelivered` splits the entries still present: `read` ones, up to the cursor, and
   * `waiting` ones, beyond it, which no worker has been given. `entriesRead` counts all reads ever.
   */
  datatype Stream = Stream(read: seq<Entry>, waiting: seq<Entry>, lastId: MsgId, lastDelivered: MsgId, entriesRead: nat)

  const EMPTY := Stream([], [], 0, 0, 0)

  /** The stream of a worker pool; no pool, or an empty name, is the default stream. */
  function JobStreamFor(base: string, pool: Option<string>): string {
    if pool.Some? && pool.value != "" then base + ":" + pool.value else base
  }

  /** Ids rise strictly within the bounds: above `lo`, up to `hi`. */
  ghost predicate Rising(entries: seq<Entry>, lo: int, hi: MsgId) {
    && (forall i | 0 <= i < |entries| :: lo < entries[i].id <= hi)
    && (forall i, j | 0 <= i < j < |entries| :: entries[i].id < entries[j].id)
  }

  ghost predicate Valid(s: Stream) {
    && s.lastDelivered <= s.lastId && |s.read| <= s.entriesRead
    && Rising(s.read, -1, s.lastDelivered) && Rising(s.waiting, s.lastDelivered, s.lastId)
  }

  /** Entries that were read and have since been acknowledged and deleted, or trimmed. */
  function Gone(s: Stream): int {
    s.entriesRead - |s.read|
  }

  function Length(s: Stream): nat {
    |s.read| + |s.waiting|
  }

  // ----- operations -----

  datatype Op =
    | Publish(run: Option<RunId>, dropped: nat)  // XADD, trimming the oldest entries
    | Read(count: nat)                           // XREADGROUP ... ">"
    | Delete(ids: set<MsgId>)                    // XACK + XDEL, or the delete of a purge

  /** `MAXLEN ~ n` may drop oldest entries only as long as n remain. */
  predicate TrimAllowed(s: Stream, op: Op, maxLen: nat) {
    op.Publish? ==> op.dropped == 0 || (op.dropped <= Length(s) && Length(s) + 1 - op.dropped >= maxLen)
  }

  /** Entries cannot be dropped that are not there. */
  predicate Possible(s: Stream, op: Op) {
    op.Publish? ==> op.dropped <= Length(s)
  }

  function Without(entries: seq<Entry>, ids: set<MsgId>): (r: seq<Entry>)
    ensures |r| <= |entries|
    ensures forall e :: e in r <==> e in entries && e.id !in ids
  {
    if entries == [] then []
    else
      var front, last := entries[..|entries| - 1], entries[|entries| - 1];
      assert entries == front + [last];
      Without(front, ids) + if last.id in ids then [] else [last]
  }

  function Batch(s: Stream, count: nat): seq<Entry> {
    if count < |s.waiting| then s.waiting[..count] else s.waiting
  }

  function Apply(s: Stream, op: Op): Stream
    requires Possible(s, op)
  {
    match op
    case Publish(run, dropped) =>
      var more := [Entry(s.lastId + 1, run)];
      if dropped <= |s.read|
      then s.(read := s.read[dropped..], waiting := s.waiting + more, lastId := s.lastId + 1)
      else s.(read := [], waiting := s.waiting[dropped - |s.read|..] + more, lastId := s.lastId + 1)
    case Read(count) =>
      var batch := Batch(s, count);
      if batch == [] then s
      else
        Stream(s.read + batch, s.waiting[|batch|..], s.lastId, batch[|batch| - 1].id, s.entriesRead + |batch|)
    case Delete(ids) => s.(read := Without(s.read, ids), waiting := Without(s.waiting, ids))
  }

  /** What the operation hands to workers. */
  function Delivers(s: Stream, op: Op): seq<Entry> {
    if op.Read? then Batch(s, op.count) else []
  }

  lemma {:induction false} WithoutRising(entries: seq<Entry>, ids: set<MsgId>, lo: int, hi: MsgId)
    requires Rising(entries, lo, hi)
    ensures Rising(Without(entries, ids), lo, hi)
  {
    if entries != [] {
      var front, last := entries[..|entries| - 1], entries[|entries| - 1];
      WithoutRising(front, ids, lo, hi);
      var kept := Without(front, ids);
      forall i | 0 <= i < |kept| ensures kept[i].id < last.id {
        assert kept[i] in front;
      }
      RisingOn(kept, last, lo, hi);
    }
  }

  lemma RisingOn(entries: seq<Entry>, last: Entry, lo: int, hi: MsgId)
    requires Rising(entries, lo, hi) && lo < last.id <= hi && forall i | 0 <= i < |entries| :: entries[i].id < last.id
    ensures Rising(entries + [last], lo, hi) == true
  {
  }

  /** What every operation keeps: well-formedness, and cursor and ids that only rise. */
  ghost predicate Follows(s: Stream, op: Op, s': Stream) {
    && Valid(s') && s.lastDelivered <= s'.lastDelivered && s.lastId <= s'.lastId && Gone(s) <= Gone(s')
    && (forall i | 0 <= i < |Delivers(s, op)| :: s.lastDelivered < Delivers(s, op)[i].id <= s'.lastDelivered)
    && |s'.waiting| <= |s.waiting| + (if op.Publish? then 1 else 0)
    && (forall e | e in s'.waiting :: e in s.waiting || e.id > s.lastId)
  }

  lemma PublishFollows(s: Stream, run: Option<RunId>, dropped: nat)
    requires Valid(s) && dropped <= Length(s)
    ensures Follows(s, Publish(run, dropped), Apply(s, Publish(run, dropped)))
  {
    var kept := if dropped <= |s.read| then s.waiting else s.waiting[dropped - |s.read|..];
    assert Rising(kept, s.lastDelivered, s.lastId);
    RisingMore(kept, s.lastDelivered, s.lastId, run);
    assert dropped <= |s.read| ==> Rising(s.read[dropped..], -1, s.lastDelivered);
  }

  lemma RisingMore(entries: seq<Entry>, lo: int, hi: MsgId, run: Option<RunId>)
    requires lo <= hi && Rising(entries, lo, hi)
    ensures Rising(entries + [Entry(hi + 1, run)], lo, hi + 1)
  {
  }

  lemma ReadFollows(s: Stream, count: nat)
    requires Valid(s)
    ensures Follows(s, Read(count), Apply(s, Read(count)))
  {
    var batch, s' := Batch(s, count), Apply(s, Read(count));
    if batch != [] {
      assert Rising(batch, s.lastDelivered, s'.lastDelivered);
      assert Rising(s'.read, -1, s'.lastDelivered);
      assert Rising(s'.waiting, s'.lastDelivered, s'.lastId);
    }
  }

  lemma DeleteFollows(s: Stream, ids: set<MsgId>)
    requires Valid(s)
    ensures Follows(s, Delete(ids), Apply(s, Delete(ids)))
  {
    WithoutRising(s.read, ids, -1, s.lastDelivered);
    WithoutRising(s.waiting, ids, s.lastDelivered, s.lastId);
  }

  lemma StepFollows(s: Stream, op: Op)
    requires Valid(s) && Possible(s, op)
    ensures Follows(s, op, Apply(s, op))
  {
    match op
    case Publish(run, dropped) => PublishFollows(s, run, dropped);
    case Read(count) => ReadFollows(s, count);
    case Delete(ids) => DeleteFollows(s, ids);
  }

  // ----- each message is handed out at most once -----

  /** The states of a stream under a list of operations. */
  ghost predicate Runs(ss: seq<Stream>, ops: seq<Op>) {
    |ss| == |ops| + 1 && Valid(ss[0]) && forall i | 0 <= i < |ops| :: RunsAt(ss, ops, i)
  }

  ghost predicate RunsAt(ss: seq<Stream>, ops: seq<Op>, i: nat)
    requires |ss| == |ops| + 1 && i < |ops|
  {
    Possible(ss[i], ops[i]) && ss[i + 1] == Apply(ss[i], ops[i])
  }

  lemma {:induction false} RunsValid(ss: seq<Stream>, ops: seq<Op>, i: nat)
    requires Runs(ss, ops) && i < |ss|
    ensures Valid(ss[i]) == true
  {
    if i > 0 {
      RunsValid(ss, ops, i - 1);
      assert RunsAt(ss, ops, i - 1);
      StepFollows(ss[i - 1], ops[i - 1]);
    }
  }

  lemma RunsFollow(ss: seq<Stream>, ops: seq<Op>, i: nat)
    requires Runs(ss, ops) && i < |ops|
    ensures Valid(ss[i]) == true && Possible(ss[i], ops[i]) && Follows(ss[i], ops[i], ss[i + 1]) == true
  {
    RunsValid(ss, ops, i);
    assert RunsAt(ss, ops, i);
    StepFollows(ss[i], ops[i]);
  }

  /** Cursor and ids have only risen, and whatever waits was there or is new. */
  ghost predicate Later(s: Stream, s': Stream) {
    && s.lastDelivered <= s'.lastDelivered && s.lastId <= s'.lastId
    && forall e | e in s'.waiting :: e in s.waiting || e.id > s.lastId
  }

  lemma LaterStep(s0: Stream, s: Stream, op: Op, s': Stream)
    requires Later(s0, s) && Follows(s, op, s')
    ensures Later(s0, s')
  {
  }

  lemma {:induction false} RunsMonotone(ss: seq<Stream>, ops: seq<Op>, i: nat, j: nat)
    requires Runs(ss, ops) && i <= j < |ss|
    ensures Later(ss[i], ss[j]) == true
    decreases j
  {
    if i < j {
      RunsMonotone(ss, ops, i, j - 1);
      RunsFollow(ss, ops, j - 1);
      LaterStep(ss[i], ss[j - 1], ops[j - 1], ss[j - 1 + 1]);
    }
  }

  /** A read hands out ids above the old cursor, up to the new one. */
  lemma DeliversBetween(ss: seq<Stream>, ops: seq<Op>, i: nat, k: nat)
    requires Runs(ss, ops) && i < |ops| && k < |Delivers(ss[i], ops[i])|
    ensures ss[i].lastDelivered < Delivers(ss[i], ops[i])[k].id <= ss[i + 1].lastDelivered
  {
    RunsFollow(ss, ops, i);
  }

  /** Whatever else happens on the stream, no two reads hand out the same message. */
  lemma DeliveredOnce(ss: seq<Stream>, ops: seq<Op>, i: nat, j: nat, k: nat, l: nat)
    requires Runs(ss, ops) && i < j < |ops|
    requires k < |Delivers(ss[i], ops[i])| && l < |Delivers(ss[j], ops[j])|
    ensures Delivers(ss[i], ops[i])[k].id < Delivers(ss[j], ops[j])[l].id
  {
    DeliversBetween(ss, ops, i, k);
    DeliversBetween(ss, ops, j, l);
    RunsMonotone(ss, ops, i + 1, j);
  }

  /** A deleted message is never handed out afterwards, even when it was snapshotted much earlier. */
  lemma PurgedNeverDelivered(ss: seq<Stream>, ops: seq<Op>, i: nat, j: nat, id: MsgId)
    requires Runs(ss, ops) && i < j < |ops|
    requires ops[i].Delete? && id in ops[i].ids && id <= ss[i].lastId
    ensures forall e | e in Delivers(ss[j], ops[j]) :: e.id != id
  {
    RunsMonotone(ss, ops, i + 1, j);
    assert RunsAt(ss, ops, i);
    forall e | e in Delivers(ss[j], ops[j]) ensures e.id != id {
      assert e in ss[j].waiting;
      if e in ss[i + 1].waiting {
        assert e in Without(ss[i].waiting, ops[i].ids);
      }
    }
  }

  // ----- the purge -----

  /** The decodable messages among those read, as (message, run) pairs. */
  function Decoded(entries: seq<Entry>): seq<(MsgId, RunId)> {
    if entries == [] then []
    else
      var last := entries[|entries| - 1];
      Decoded(entries[..|entries| - 1]) + if last.run.Some? then [(last.id, last.run.value)] else []
  }

  function Ids(entries: seq<Entry>): set<MsgId> {
    set e | e in entries :: e.id
  }

  lemma {:induction false} WithoutAll(entries: seq<Entry>, ids: set<MsgId>)
    requires forall i | 0 <= i < |entries| :: entries[i].id in ids
    ensures Without(entries, ids) == []
  {
    if entries != [] {
      WithoutAll(entries[..|entries| - 1], ids);
    }
  }

  lemma {:induction false} PrefixRemoved(entries: seq<Entry>, n: nat, ids: set<MsgId>)
    requires n <= |entries|
    requires forall i | 0 <= i < |entries| :: entries[i].id in ids <==> i < n
    ensures Without(entries, ids) == entries[n..]
  {
    if n == |entries| {
      WithoutAll(entries, ids);
    } else {
      var front, last := entries[..|entries| - 1], entries[|entries| - 1];
      PrefixRemoved(front, n, ids);
      assert entries[n..] == front[n..] + [last];
    }
  }

  /** One stream on the server. */
  class Channel {
    var stream: Stream

    constructor ()
      ensures stream == EMPTY
    {
      stream := EMPTY;
    }

    /** `read_jobs`: the next messages beyond the cursor, oldest first. */
    method ReadJobs(count: nat) returns (batch: seq<Entry>)
      requires Valid(stream)
      modifies this
      ensures Valid(stream) && stream == Apply(old(stream), Read(count))
      ensures batch == Delivers(old(stream), Read(count)) && batch + stream.waiting == old(stream).waiting
    {
      ReadFollows(stream, count);
      ghost var before := stream;
      var n := if count < |stream.waiting| then count else |stream.waiting|;
      batch := stream.waiting[..n];
      if n > 0 {
        stream := Stream(stream.read + batch, stream.waiting[n..], stream.lastId, batch[n - 1].id, stream.entriesRead + n);
      }
      assert batch == Batch(before, count);
      assert stream == Apply(before, Read(count));
    }

    /** `ack_job`: the one message is gone, wherever it was; all others stay, in their order. */
    method Acknowledge(id: MsgId)
      requires Valid(stream)
      modifies this
      ensures Valid(stream)
      ensures forall e :: e in stream.read <==> e in old(stream.read) && e.id != id
      ensures forall e :: e in stream.waiting <==> e in old(stream.waiting) && e.id != id
      ensures id <= old(stream.lastDelivered) ==> stream.waiting == old(stream.waiting)
      ensures stream.lastId == old(stream.lastId) && stream.lastDelivered == old(stream.lastDelivered)
      ensures stream.entriesRead == old(stream.entriesRead)
    {
      DeleteFollows(stream, {id});
      if id <= stream.lastDelivered {
        WithoutNone(stream.waiting, {id});
      }
      stream := Apply(stream, Delete({id}));
    }

    /** `purge_undelivered`: reads the oldest waiting messages, up to the read limit, and deletes those very messages,
        whatever happened to the stream in between; returns the runs of those that decode. */
    method PurgeUndelivered(limit: nat, between: seq<Op>) returns (results: seq<(MsgId, RunId)>)
      requires Valid(stream) && AllPossible(stream, between)
      modifies this
      ensures Valid(stream) && results == Decoded(Batch(old(stream), limit))
      ensures var (ids, mid) := (Ids(Batch(old(stream), limit)), AfterAll(old(stream), between));
        && (forall e :: e in stream.read <==> e in mid.read && e.id !in ids)
        && (forall e :: e in stream.waiting <==> e in mid.waiting && e.id !in ids)
        && stream.lastDelivered == mid.lastDelivered
    {
      var ids;
      ids, results := Collect(Batch(stream, limit));
      Interfere(between);
      DeleteAll(ids);
    }

    /** XDEL of the listed messages. */
    method DeleteAll(ids: set<MsgId>)
      requires Valid(stream)
      modifies this
      ensures Valid(stream) && stream == Apply(old(stream), Delete(ids))
      ensures forall e :: e in stream.read <==> e in old(stream.read) && e.id !in ids
      ensures forall e :: e in stream.waiting <==> e in old(stream.waiting) && e.id !in ids
    {
      DeleteFollows(stream, ids);
      stream := Apply(stream, Delete(ids));
    }

    /** What publishers, workers and other purges do meanwhile. */
    method Interfere(ops: seq<Op>)
      requires Valid(stream) && AllPossible(stream, ops)
      modifies this
      ensures stream == AfterAll(old(stream), ops) && Valid(stream)
    {
      AfterAllValid(stream, ops);
      stream := AfterAll(stream, ops);
    }
  }

  /** The loop over a snapshot: all its ids, and the runs of the messages that decode. */
  method Collect(snapshot: seq<Entry>) returns (ids: set<MsgId>, results: seq<(MsgId, RunId)>)
    ensures ids == Ids(snapshot) && results == Decoded(snapshot)
  {
    results, ids := [], {};
    for i := 0 to |snapshot|
      invariant ids == Ids(snapshot[..i]) && results == Decoded(snapshot[..i])
    {
      GrowIds(snapshot, i);
      ids := ids + {snapshot[i].id};
      if snapshot[i].run.Some? {
        results := results + [(snapshot[i].id, snapshot[i].run.value)];
      }
    }
    assert snapshot[..|snapshot|] == snapshot;
  }

  ghost predicate AllPossible(s: Stream, ops: seq<Op>)
    decreases |ops|
  {
    ops == [] || (Possible(s, ops[0]) && AllPossible(Apply(s, ops[0]), ops[1..]))
  }

  function AfterAll(s: Stream, ops: seq<Op>): Stream
    requires AllPossible(s, ops)
    decreases |ops|
  {
    if ops == [] then s else AfterAll(Apply(s, ops[0]), ops[1..])
  }

  lemma {:induction false} AfterAllValid(s: Stream, ops: seq<Op>)
    requires Valid(s) && AllPossible(s, ops)
    ensures Valid(AfterAll(s, ops)) == true
    decreases |ops|
  {
    if ops != [] {
      StepFollows(s, ops[0]);
      AfterAllValid(Apply(s, ops[0]), ops[1..]);
    }
  }

  lemma GrowIds(entries: seq<Entry>, i: nat)
    requires i < |entries|
    ensures Ids(entries[..i + 1]) == Ids(entries[..i]) + {entries[i].id}
    ensures Decoded(entries[..i + 1])
         == Decoded(entries[..i]) + if entries[i].run.Some? then [(entries[i].id, entries[i].run.value)] else []
  {
    assert entries[..i + 1][..i] == entries[..i];
    assert entries[..i + 1] == entries[..i] + [entries[i]];
    forall id ensures id in Ids(entries[..i + 1]) <==> id in Ids(entries[..i]) || id == entries[i].id {
      if id == entries[i].id {
        assert entries[i] in entries[..i + 1];
      }
    }
  }

  /** Deleting the oldest waiting messages by id leaves the read ones and the younger waiting ones. */
  lemma DeleteSnapshot(s: Stream, n: nat)
    requires Valid(s) && n <= |s.waiting|
    ensures var s' := Apply(s, Delete(Ids(s.waiting[..n])));
      Valid(s') && s'.read == s.read && s'.waiting == s.waiting[n..] && s'.lastDelivered == s.lastDelivered
  {
    var ids := Ids(s.waiting[..n]);
    StepFollows(s, Delete(ids));
    forall i | 0 <= i < |s.waiting| ensures s.waiting[i].id in ids <==> i < n {
      if i < n {
        assert s.waiting[..n][i] == s.waiting[i];
      }
    }
    PrefixRemoved(s.waiting, n, ids);
    forall e | e in s.read ensures e.id !in ids {
      assert e.id <= s.lastDelivered;
    }
    WithoutNone(s.read, ids);
  }

  lemma {:induction false} WithoutNone(entries: seq<Entry>, ids: set<MsgId>)
    requires forall e | e in entries :: e.id !in ids
    ensures Without(entries, ids) == entries
  {
    if entries != [] {
      var front := entries[..|entries| - 1];
      assert entries == front + [entries[|entries| - 1]];
      WithoutNone(front, ids);
    }
  }
}
