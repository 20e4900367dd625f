/**
 * The job queue of the protocol is a bag of runs, a Redis stream is not. Here every operation on a stream is
 * matched by steps of the protocol, so that what holds of the bag in every execution holds of the stream behind it.
 */
module StreamTokens {
  import opened Basics
  import opened Ledger
  import opened Lifecycle
  import JobQueue

  type Entry = JobQueue.Entry
  type Stream = JobQueue.Stream

  // ----- what a stream holds, as a bag -----

  function One(e: Entry): multiset<RunId> {
    if e.run.Some? then multiset{e.run.value} else multiset{}
  }

  /** The runs of the messages that decode. */
  function Bag(entries: seq<Entry>): multiset<RunId> {
    if entries == [] then multiset{} else Bag(entries[..|entries| - 1]) + One(entries[|entries| - 1])
  }

  /** The stream is the protocol's job queue, but for the `rest` that other streams hold. */
  ghost predicate Holds(w: World, s: Stream, rest: multiset<RunId>) {
    w.jobs == Bag(s.waiting) + rest
  }

  lemma BagStep(x: seq<Entry>, e: Entry)
    ensures Bag(x + [e]) == Bag(x) + One(e)
  {
    assert (x + [e])[..|x|] == x;
  }

  lemma BagAppendStep(x: multiset<RunId>, y: seq<Entry>, xy: seq<Entry>, e: Entry)
    requires Bag(xy) == x + Bag(y)
    ensures Bag(xy + [e]) == x + Bag(y + [e])
  {
    BagStep(xy, e);
    BagStep(y, e);
    Chain(x, Bag(y), One(e), Bag(xy), Bag(y + [e]), Bag(xy + [e]));
  }

  lemma Chain(x: multiset<RunId>, y: multiset<RunId>, e: multiset<RunId>,
    xy: multiset<RunId>, ye: multiset<RunId>, xye: multiset<RunId>)
    requires xy == x + y && ye == y + e && xye == xy + e
    ensures xye == x + ye
  {
  }

  lemma {:induction false} BagAppend(x: seq<Entry>, y: seq<Entry>)
    ensures Bag(x + y) == Bag(x) + Bag(y)
  {
    if |y| == 0 {
      assert x + y == x;
    } else {
      var n := |y| - 1;
      assert y == y[..n] + [y[n]];
      BagAppend(x, y[..n]);
      assert x + y == (x + y[..n]) + [y[n]];
      BagAppendStep(Bag(x), y[..n], x + y[..n], y[n]);
    }
  }

  lemma Regroup(a: multiset<RunId>, b: multiset<RunId>, c: multiset<RunId>)
    ensures (a + b) + c == a + (b + c) && (a + b) + c == (b + c) + a
  {
  }

  /** What a delete takes away. */
  function Removed(entries: seq<Entry>, ids: set<JobQueue.MsgId>): multiset<RunId> {
    if entries == [] then multiset{}
    else
      var n := |entries| - 1;
      Removed(entries[..n], ids) + if entries[n].id in ids then One(entries[n]) else multiset{}
  }

  lemma {:induction false} BagWithout(entries: seq<Entry>, ids: set<JobQueue.MsgId>)
    ensures Bag(entries) == Bag(JobQueue.Without(entries, ids)) + Removed(entries, ids)
  {
    if entries != [] {
      var n := |entries| - 1;
      var kept := JobQueue.Without(entries[..n], ids);
      BagWithout(entries[..n], ids);
      BagStep(kept, entries[n]);
      assert kept + [] == kept;
      Regroup(Bag(kept), Removed(entries[..n], ids), One(entries[n]));
      Regroup(Bag(kept), One(entries[n]), Removed(entries[..n], ids));
    }
  }

  lemma Within(a: multiset<RunId>, b: multiset<RunId>, whole: multiset<RunId>)
    requires a + b <= whole
    ensures a <= whole
  {
    forall r ensures a[r] <= whole[r] {
      assert (a + b)[r] <= whole[r];
    }
  }

  lemma Remains(a: multiset<RunId>, b: multiset<RunId>, whole: multiset<RunId>, left: multiset<RunId>)
    requires a + b <= whole && whole == left + a
    ensures b <= left
  {
    forall r ensures b[r] <= left[r] {
      assert (a + b)[r] <= whole[r];
    }
  }

  // ----- paths of the protocol -----

  /** The steps lead from the first world to the last. */
  ghost predicate Path(ws: seq<World>, steps: seq<Step>) {
    |ws| == |steps| + 1 && forall i: nat | i < |steps| :: StepAt(ws, steps, i)
  }

  /** A path from w to w' whose steps are all of one kind. */
  ghost predicate Leads(w: World, ws: seq<World>, steps: seq<Step>, w': World, kind: Step -> bool) {
    && Path(ws, steps) && ws[0] == w && ws[|steps|] == w'
    && forall i | 0 <= i < |steps| :: kind(steps[i])
  }

  predicate IsDeliver(step: Step) { step.Deliver? }

  predicate IsLoss(step: Step) { step.LoseJob? }

  lemma Stays(w: World, kind: Step -> bool) returns (ws: seq<World>, steps: seq<Step>)
    ensures Leads(w, ws, steps, w, kind) == true && steps == []
  {
    ws, steps := [w], [];
  }

  lemma GoesOn(w: World, ws: seq<World>, steps: seq<Step>, w': World, kind: Step -> bool, step: Step, w'': World)
    returns (ws': seq<World>, steps': seq<Step>)
    requires Leads(w, ws, steps, w', kind) == true && Next(w', step, w'') == true && kind(step)
    ensures Leads(w, ws', steps', w'', kind) == true && steps' == steps + [step]
  {
    ws', steps' := ws + [w''], steps + [step];
    forall i: nat | i < |steps'| ensures StepAt(ws', steps', i) == true && kind(steps'[i]) {
      if i < |steps| {
        assert StepAt(ws, steps, i);
        assert ws'[i] == ws[i] && ws'[i + 1] == ws[i + 1] && steps'[i] == steps[i];
      }
    }
  }

  // ----- a read is a delivery of each message -----

  /** Messages moved from the queue to workers, and nothing else. */
  ghost predicate Delivered(w: World, w': World, moved: multiset<RunId>) {
    && w' == w.(jobs := w'.jobs, held := w'.held)
    && w.jobs == w'.jobs + moved && w'.held == w.held + moved
  }

  lemma DeliverOne(w: World, w': World, moved: multiset<RunId>, r: RunId) returns (w'': World)
    requires Delivered(w, w', moved) == true && r in w'.jobs
    ensures Next(w', Deliver(r), w'') == true && Delivered(w, w'', moved + multiset{r}) == true
  {
    w'' := Move(w', Deliver(r));
  }

  lemma {:induction false} DeliverAll(w: World, entries: seq<Entry>)
    returns (ws: seq<World>, steps: seq<Step>, w': World)
    requires Bag(entries) <= w.jobs
    ensures Leads(w, ws, steps, w', IsDeliver) == true && Delivered(w, w', Bag(entries)) == true
  {
    if entries == [] {
      ws, steps := Stays(w, IsDeliver);
      w' := w;
      assert w.jobs == w.jobs + multiset{} && w.held == w.held + multiset{};
    } else {
      var front, last := entries[..|entries| - 1], entries[|entries| - 1];
      Within(Bag(front), One(last), w.jobs);
      ws, steps, w' := DeliverAll(w, front);
      Remains(Bag(front), One(last), w.jobs, w'.jobs);
      if last.run.Some? {
        var r := last.run.value;
        var w'' := DeliverOne(w, w', Bag(front), r);
        ws, steps := GoesOn(w, ws, steps, w', IsDeliver, Deliver(r), w'');
        w' := w'';
      } else {
        assert Bag(entries) == Bag(front);
      }
    }
  }

  /** A read hands its messages to workers, one delivery each, oldest first. */
  lemma ReadDelivers(w: World, s: Stream, count: nat, rest: multiset<RunId>)
    returns (ws: seq<World>, steps: seq<Step>, w': World)
    requires Holds(w, s, rest)
    ensures Leads(w, ws, steps, w', IsDeliver) == true
    ensures var op := JobQueue.Read(count);
      Holds(w', JobQueue.Apply(s, op), rest) && Delivered(w, w', Bag(JobQueue.Delivers(s, op)))
  {
    var batch := JobQueue.Batch(s, count);
    ReadBag(s, count);
    ws, steps, w' := DeliverAll(w, batch);
    Cancel(w.jobs, w'.jobs, Bag(batch), Bag(JobQueue.Apply(s, JobQueue.Read(count)).waiting), rest);
  }

  lemma ReadBag(s: Stream, count: nat)
    ensures Bag(s.waiting) == Bag(JobQueue.Apply(s, JobQueue.Read(count)).waiting) + Bag(JobQueue.Batch(s, count))
  {
    var batch := JobQueue.Batch(s, count);
    var left := s.waiting[|batch|..];
    assert s.waiting == batch + left;
    BagAppend(batch, left);
    assert JobQueue.Apply(s, JobQueue.Read(count)).waiting == left;
  }

  lemma Cancel(jobs: multiset<RunId>, jobs': multiset<RunId>, moved: multiset<RunId>, left: multiset<RunId>, rest: multiset<RunId>)
    requires jobs == (left + moved) + rest && jobs == jobs' + moved
    ensures jobs' == left + rest
  {
    forall r ensures jobs'[r] == (left + rest)[r] {
      assert jobs[r] == left[r] + moved[r] + rest[r];
    }
  }

  // ----- a trim loses messages -----

  /** Messages taken out of the queue and recorded as lost, and nothing else. */
  ghost predicate Lost(w: World, w': World, gone: multiset<RunId>) {
    w' == w.(jobs := w'.jobs, h := w.h.(lost := w'.h.lost)) && w.jobs == w'.jobs + gone && w.h.lost <= w'.h.lost
  }

  lemma LoseOne(w: World, w': World, gone: multiset<RunId>, r: RunId) returns (w'': World)
    requires Lost(w, w', gone) == true && r in w'.jobs
    ensures Next(w', LoseJob(r), w'') == true && Lost(w, w'', gone + multiset{r}) == true
  {
    w'' := Move(w', LoseJob(r));
  }

  lemma {:induction false} LoseAll(w: World, entries: seq<Entry>) returns (ws: seq<World>, steps: seq<Step>, w': World)
    requires Bag(entries) <= w.jobs
    ensures Leads(w, ws, steps, w', IsLoss) == true && Lost(w, w', Bag(entries)) == true
  {
    if entries == [] {
      ws, steps := Stays(w, IsLoss);
      w' := w;
      assert w.jobs == w.jobs + multiset{};
    } else {
      var front, last := entries[..|entries| - 1], entries[|entries| - 1];
      Within(Bag(front), One(last), w.jobs);
      ws, steps, w' := LoseAll(w, front);
      Remains(Bag(front), One(last), w.jobs, w'.jobs);
      if last.run.Some? {
        var r := last.run.value;
        var w'' := LoseOne(w, w', Bag(front), r);
        ws, steps := GoesOn(w, ws, steps, w', IsLoss, LoseJob(r), w'');
        w' := w'';
      } else {
        assert Bag(entries) == Bag(front);
      }
    }
  }

  /** A publish is the dispatcher's step, followed by a loss of each waiting message that its trimming drops. */
  lemma PublishAndTrim(w: World, s: Stream, rest: multiset<RunId>, b: BatchId, at: Time, dropped: nat)
    returns (w': World, ws: seq<World>, steps: seq<Step>, w'': World)
    requires Holds(w, s, rest) && dropped <= JobQueue.Length(s)
    requires Enabled(w, FirePublish(b, at)) && w.txns[b].todo[0].hasCredential
    ensures Next(w, FirePublish(b, at), w') == true && Leads(w', ws, steps, w'', IsLoss) == true
    ensures Holds(w'', JobQueue.Apply(s, JobQueue.Publish(Some(w.txns[b].todo[0].run), dropped)), rest)
  {
    var r := w.txns[b].todo[0].run;
    w' := PublishStep(w, b, at);
    var gone := if dropped <= |s.read| then [] else s.waiting[..dropped - |s.read|];
    TrimmedBag(s, r, dropped, gone);
    Regroup(Bag(s.waiting), rest, multiset{r});
    var left := Bag(JobQueue.Apply(s, JobQueue.Publish(Some(r), dropped)).waiting);
    assert w'.jobs == (left + Bag(gone)) + rest;
    ws, steps, w'' := LoseAll(w', gone);
    Cancel(w'.jobs, w''.jobs, Bag(gone), left, rest);
  }

  lemma TrimmedBag(s: Stream, r: RunId, dropped: nat, gone: seq<Entry>)
    requires dropped <= JobQueue.Length(s)
    requires gone == if dropped <= |s.read| then [] else s.waiting[..dropped - |s.read|]
    ensures Bag(JobQueue.Apply(s, JobQueue.Publish(Some(r), dropped)).waiting) + Bag(gone) == Bag(s.waiting) + multiset{r}
  {
    var kept, e := s.waiting[|gone|..], JobQueue.Entry(s.lastId + 1, Some(r));
    TrimmedWaiting(s, r, dropped, gone, kept, e);
    BagAppend(gone, kept);
    BagStep(kept, e);
    Rechain(Bag(gone), Bag(kept), multiset{r}, Bag(s.waiting), Bag(kept + [e]));
  }

  lemma TrimmedWaiting(s: Stream, r: RunId, dropped: nat, gone: seq<Entry>, kept: seq<Entry>, e: Entry)
    requires dropped <= JobQueue.Length(s) && e == JobQueue.Entry(s.lastId + 1, Some(r))
    requires gone == (if dropped <= |s.read| then [] else s.waiting[..dropped - |s.read|]) && kept == s.waiting[|gone|..]
    ensures s.waiting == gone + kept
    ensures JobQueue.Apply(s, JobQueue.Publish(Some(r), dropped)).waiting == kept + [e]
  {
  }

  lemma Rechain(gone: multiset<RunId>, kept: multiset<RunId>, e: multiset<RunId>,
    waiting: multiset<RunId>, left: multiset<RunId>)
    requires waiting == gone + kept && left == kept + e
    ensures left + gone == waiting + e
  {
  }

  lemma PublishStep(w: World, b: BatchId, at: Time) returns (w': World)
    requires Enabled(w, FirePublish(b, at)) && w.txns[b].todo[0].hasCredential
    ensures Next(w, FirePublish(b, at), w') == true && w'.jobs == w.jobs + multiset{w.txns[b].todo[0].run}
  {
    w' := AfterPublish(w, b, at);
  }

  // ----- a purge deletes, an acknowledgement is silent -----

  /** Taking a set out of a bag without repeats takes out a bag with the same members. */
  lemma TakeOut(jobs: multiset<RunId>, rs: set<RunId>, gone: multiset<RunId>)
    requires gone <= jobs && forall r :: jobs[r] <= 1
    requires forall r | r in jobs :: r in rs <==> r in gone
    ensures Without(jobs, rs) + gone == jobs
  {
    forall r ensures (Without(jobs, rs) + gone)[r] == jobs[r] {
      assert gone[r] <= jobs[r] <= 1;
    }
  }

  /** The delete of a purge is one step, when its snapshot lists the runs of the messages deleted; messages that
      workers took since the snapshot are not touched by either. */
  lemma PurgeDeletes(w: World, s: Stream, rest: multiset<RunId>, k: int, ids: set<JobQueue.MsgId>) returns (w': World)
    requires Holds(w, s, rest) && k in w.purges
    requires forall r :: w.jobs[r] <= 1
    requires forall r | r in w.jobs :: r in w.purges[k] <==> r in Removed(s.waiting, ids)
    ensures Next(w, PurgeDelete(k), w') == true
    ensures Holds(w', JobQueue.Apply(s, JobQueue.Delete(ids)), rest)
  {
    BagWithout(s.waiting, ids);
    TakeOut(w.jobs, w.purges[k], Removed(s.waiting, ids));
    w' := PurgeStep(w, k);
  }

  lemma PurgeStep(w: World, k: int) returns (w': World)
    requires k in w.purges
    ensures Next(w, PurgeDelete(k), w') == true && w'.jobs == Without(w.jobs, w.purges[k])
  {
    w' := Move(w, PurgeDelete(k));
  }

  /** Acknowledging a message that was read changes nothing the protocol sees. */
  lemma AckIsSilent(w: World, s: Stream, rest: multiset<RunId>, id: JobQueue.MsgId)
    requires JobQueue.Valid(s) && Holds(w, s, rest) && id <= s.lastDelivered
    ensures Holds(w, JobQueue.Apply(s, JobQueue.Delete({id})), rest)
  {
    JobQueue.WithoutNone(s.waiting, {id});
  }

  // ----- the worker -----

  /** The subprocess of a job that dies after `effects` of its effects is one step: it crashes when it dies before the
      result is out, else it publishes; whether the acknowledgement follows does not matter. */
  lemma HandleIsStep(w: World, r: RunId, effects: nat) returns (step: Step, w': World)
    requires r in w.held
    ensures step == if effects == 0 then WorkerCrash(r) else WorkerPublish(r)
    ensures Next(w, step, w') == true && w'.jobs == w.jobs && w'.held == w.held - multiset{r}
    ensures w'.results == w.results + (if effects == 0 then multiset{} else multiset{r})
  {
    step := if effects == 0 then WorkerCrash(r) else WorkerPublish(r);
    w' := Move(w, step);
  }
}
