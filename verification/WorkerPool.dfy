/**
 * One worker process (src/kiroku/worker/runner.py): the slot-limited loop that takes job messages, and what is
 * left behind when a job's subprocess dies.
 */
module WorkerPool {
  import opened Basics
  import opened JobQueue

  /** What `execute` does with a job: it raises, or it reports success or failure. */
  datatype Outcome = Raised | Reported(success: bool)

  /** A result message; only the fields that the protocol reads. */
  datatype Report = Report(run: RunId, success: bool)

  class ResultStream {
    var sent: seq<Report>

    constructor ()
      ensures sent == []
    {
      sent := [];
    }
  }

  /** `_handle`, in a subprocess that dies after `steps` of its two effects. A job leaves the stream only after its
      one result is out, and the result claims success only when the run on the device reported it. */
  method Handle(
    channel: Channel, results: ResultStream, id: MsgId, run: RunId, hasMaterial: bool, outcome: Outcome, steps: nat)
    requires Valid(channel.stream) && id <= channel.stream.lastDelivered
    modifies channel, results
    ensures Valid(channel.stream) && channel.stream.waiting == old(channel.stream.waiting)
    ensures results.sent == old(results.sent) + if steps == 0 then [] else [Report(run, hasMaterial && outcome == Reported(true))]
    ensures forall e :: e in channel.stream.read <==> e in old(channel.stream.read) && (steps >= 2 ==> e.id != id)
  {
    var success := false;
    if hasMaterial {
      match outcome
      case Raised =>
      case Reported(ok) => success := ok;
    }
    if steps == 0 {
      return;
    }
    results.sent := results.sent + [Report(run, success)];
    if steps == 1 {
      return;
    }
    WithoutNone(channel.stream.waiting, {id});
    channel.Acknowledge(id);
  }

  /** The loop's state: one future per job taken and not yet seen to be done, under the job's message id. */
  class Pool {
    const concurrency: nat
    const channel: Channel
    var pending: set<MsgId>

    constructor (concurrency: nat, channel: Channel)
      requires JobQueue.Valid(channel.stream)
      ensures this.concurrency == concurrency && this.channel == channel && pending == {} && Valid()
    {
      this.concurrency, this.channel, pending := concurrency, channel, {};
    }

    /** Never more jobs than slots, and every job was handed out by the stream. */
    ghost predicate Valid()
      reads this, channel
    {
      && JobQueue.Valid(channel.stream) && |pending| <= concurrency
      && forall id | id in pending :: id <= channel.stream.lastDelivered
    }

    /**
     * One turn of the loop of `run_worker`. `done` have finished since the last turn, `woken` finish while a full
     * pool waits, and the read may fail. Each job taken is new to the pool, fits in a free slot and is the oldest
     * that waits; messages that do not decode are taken off the stream but not run.
     */
    method Turn(done: set<MsgId>, woken: set<MsgId>, readFails: bool) returns (submitted: seq<(MsgId, RunId)>)
      requires Valid()
      modifies this`pending, channel
      ensures Valid()
      ensures var left := old(pending) - done;
        if |left| >= concurrency then submitted == [] && pending == left - woken && channel.stream == old(channel.stream)
        else if readFails then submitted == [] && pending == left && channel.stream == old(channel.stream)
        else
          var batch := Batch(old(channel.stream), concurrency - |left|);
          && batch + channel.stream.waiting == old(channel.stream).waiting
          && submitted == Decoded(batch) && (forall e | e in batch :: e.id !in old(pending))
          && pending == left + Keys(submitted)
    {
      submitted := [];
      var left := pending - done;
      Smaller(left, pending);
      pending := left;
      var slots: int := concurrency - |pending|;
      if slots <= 0 {
        Smaller(pending - woken, pending);
        pending := pending - woken;
        return;
      }
      if readFails {
        return;
      }
      TakenNew(channel.stream, slots, old(pending));
      var batch := channel.ReadJobs(slots);
      submitted := Decoded(batch);
      KeysFew(batch);
      pending := pending + Keys(submitted);
    }
  }

  function Keys(jobs: seq<(MsgId, RunId)>): set<MsgId> {
    set j | j in jobs :: j.0
  }

  /** What a read hands out is new to a pool whose jobs were all handed out before. */
  lemma TakenNew(s: Stream, count: nat, pending: set<MsgId>)
    requires JobQueue.Valid(s) && forall id | id in pending :: id <= s.lastDelivered
    ensures forall e | e in Batch(s, count) :: e.id !in pending && e.id <= Apply(s, Read(count)).lastDelivered
    ensures s.lastDelivered <= Apply(s, Read(count)).lastDelivered
  {
    ReadFollows(s, count);
  }

  lemma Smaller(a: set<MsgId>, b: set<MsgId>)
    requires a <= b
    ensures |a| <= |b|
  {
    assert b == a + (b - a);
  }

  lemma {:induction false} KeysFew(batch: seq<Entry>)
    ensures |Keys(Decoded(batch))| <= |batch|
    ensures forall id | id in Keys(Decoded(batch)) :: exists e :: e in batch && e.id == id
  {
    if batch != [] {
      var front, last := batch[..|batch| - 1], batch[|batch| - 1];
      KeysFew(front);
      assert batch == front + [last];
      var more := if last.run.Some? then {last.id} else {};
      forall id ensures id in Keys(Decoded(batch)) <==> id in Keys(Decoded(front)) || id in more {
        assert last.run.Some? ==> (last.id, last.run.value) in Decoded(batch);
      }
      assert Keys(Decoded(batch)) == Keys(Decoded(front)) + more;
    }
  }
}
