/** Firing a job (src/kiroku/dispatch.py): whom it targets, whether it is admitted, what it publishes. */
module Dispatch {
  import opened Basics
  import opened Targeting
  import opened Ledger
  import opened Lifecycle
  import Compliance
  import JobQueue
  import BackPressure

  type Credential = int

  datatype Device = Device(id: DeviceId, enabled: bool, pool: Option<string>, credential: Option<Credential>)

  datatype Group = Group(devices: seq<Device>, pool: Option<string>, defaultCredential: Option<Credential>)

  datatype Job = Job(kind: Kind, groups: seq<Group>, devices: seq<Device>)

  /** A targeted device with the group that targets it, if a group does. */
  datatype Target = Target(device: Device, group: Option<Group>)

  // ----- targeting -----

  /** All candidates in visiting order: group members in group order, then direct devices. */
  function GroupTargets(g: Group): seq<Target> {
    seq(|g.devices|, i requires 0 <= i < |g.devices| => Target(g.devices[i], Some(g)))
  }

  function DirectTargets(devices: seq<Device>): seq<Target> {
    seq(|devices|, i requires 0 <= i < |devices| => Target(devices[i], None))
  }

  function AllGroupTargets(groups: seq<Group>): seq<Target> {
    if groups == [] then [] else AllGroupTargets(groups[..|groups| - 1]) + GroupTargets(groups[|groups| - 1])
  }

  function Candidates(job: Job): seq<Target> {
    AllGroupTargets(job.groups) + DirectTargets(job.devices)
  }

  function Ids(ts: seq<Target>): (ids: seq<DeviceId>)
    ensures |ids| == |ts|
  {
    seq(|ts|, i requires 0 <= i < |ts| => ts[i].device.id)
  }

  /** The candidates that are enabled and not already taken. */
  function Taken(ts: seq<Target>): seq<Target> {
    if ts == [] then []
    else
      var front, last := Taken(ts[..|ts| - 1]), ts[|ts| - 1];
      if last.device.enabled && last.device.id !in Ids(front) then front + [last] else front
  }

  /** The list built so far is what the visited candidates give, and `seen` is its ids. */
  ghost predicate Tracks(visited: seq<Target>, seen: set<DeviceId>, pairs: seq<Target>) {
    pairs == Taken(visited) && forall d :: d in seen <==> d in Ids(pairs)
  }

  lemma TracksStep(visited: seq<Target>, t: Target, seen: set<DeviceId>, pairs: seq<Target>)
    requires Tracks(visited, seen, pairs) == true
    ensures if t.device.enabled && t.device.id !in seen
      then Tracks(visited + [t], seen + {t.device.id}, pairs + [t]) == true else Tracks(visited + [t], seen, pairs) == true
  {
    assert (visited + [t])[..|visited|] == visited;
    assert Ids(pairs + [t]) == Ids(pairs) + [t.device.id];
  }

  method TargetDevices(job: Job) returns (pairs: seq<Target>)
    ensures pairs == Taken(Candidates(job))
  {
    var seen: set<DeviceId> := {};
    pairs := [];
    ghost var visited: seq<Target> := [];
    for i := 0 to |job.groups|
      invariant visited == AllGroupTargets(job.groups[..i]) && Tracks(visited, seen, pairs) == true
    {
      var g := job.groups[i];
      ghost var before := visited;
      for j := 0 to |g.devices|
        invariant visited == before + GroupTargets(g)[..j] && Tracks(visited, seen, pairs) == true
      {
        var t := Target(g.devices[j], Some(g));
        TracksStep(visited, t, seen, pairs);
        if t.device.enabled && t.device.id !in seen {
          seen := seen + {t.device.id};
          pairs := pairs + [t];
        }
        assert GroupTargets(g)[..j + 1] == GroupTargets(g)[..j] + [t];
        visited := visited + [t];
      }
      assert GroupTargets(g)[..|g.devices|] == GroupTargets(g);
      assert job.groups[..i + 1][..i] == job.groups[..i];
    }
    assert job.groups[..|job.groups|] == job.groups;
    ghost var before := visited;
    for j := 0 to |job.devices|
      invariant visited == before + DirectTargets(job.devices)[..j] && Tracks(visited, seen, pairs) == true
    {
      var t := Target(job.devices[j], None);
      TracksStep(visited, t, seen, pairs);
      if t.device.enabled && t.device.id !in seen {
        seen := seen + {t.device.id};
        pairs := pairs + [t];
      }
      assert DirectTargets(job.devices)[..j + 1] == DirectTargets(job.devices)[..j] + [t];
      visited := visited + [t];
    }
    assert DirectTargets(job.devices)[..|job.devices|] == DirectTargets(job.devices);
  }

  /** How many devices the first m groups have together. */
  function Before(groups: seq<Group>, m: nat): nat
    requires m <= |groups|
  {
    if m == 0 then 0 else Before(groups, m - 1) + |groups[m - 1].devices|
  }

  lemma {:induction false} BeforeFront(groups: seq<Group>, n: nat, m: nat)
    requires m <= n <= |groups|
    ensures Before(groups[..n], m) == Before(groups, m) <= Before(groups, n)
  {
    if m > 0 {
      BeforeFront(groups, n, m - 1);
    }
    if m < n {
      BeforeFront(groups, n - 1, m);
    }
  }

  /** The j-th device of the m-th group comes after all devices of the groups before it, paired with its own group. */
  lemma {:induction false} GroupCandidate(groups: seq<Group>, m: nat, j: nat)
    requires m < |groups| && j < |groups[m].devices|
    ensures |AllGroupTargets(groups)| == Before(groups, |groups|) && Before(groups, m) + j < Before(groups, |groups|)
    ensures AllGroupTargets(groups)[Before(groups, m) + j] == Target(groups[m].devices[j], Some(groups[m]))
  {
    var n := |groups| - 1;
    BeforeFront(groups, n, n);
    BeforeFront(groups, n, m);
    if m < n {
      GroupCandidate(groups[..n], m, j);
    } else {
      GroupCandidateCount(groups[..n]);
    }
  }

  lemma {:induction false} GroupCandidateCount(groups: seq<Group>)
    ensures |AllGroupTargets(groups)| == Before(groups, |groups|)
  {
    if groups != [] {
      GroupCandidateCount(groups[..|groups| - 1]);
      BeforeFront(groups, |groups| - 1, |groups| - 1);
    }
  }

  ghost predicate Placed(ts: seq<Target>, groups: seq<Group>, m: nat, j: nat)
    requires m < |groups| && j < |groups[m].devices|
  {
    var k := Before(groups, m) + j;
    k < |ts| && ts[k] == Target(groups[m].devices[j], Some(groups[m]))
  }

  /** The candidates in order: each group's devices, paired with their group, then the direct devices without one. */
  lemma CandidatesInOrder(job: Job)
    ensures var (ts, n) := (Candidates(job), Before(job.groups, |job.groups|));
      && |ts| == n + |job.devices|
      && (forall m: nat, j: nat | m < |job.groups| && j < |job.groups[m].devices| :: Placed(ts, job.groups, m, j))
      && (forall j: nat | j < |job.devices| :: ts[n + j] == Target(job.devices[j], None))
  {
    GroupCandidateCount(job.groups);
    forall m: nat, j: nat | m < |job.groups| && j < |job.groups[m].devices|
      ensures Placed(Candidates(job), job.groups, m, j) == true
    {
      GroupCandidate(job.groups, m, j);
    }
  }

  /** The k-th candidate is the first enabled one for its device. */
  ghost predicate IsFirst(ts: seq<Target>, k: int) {
    0 <= k < |ts| && ts[k].device.enabled
    && forall j | 0 <= j < k :: !(ts[j].device.enabled && ts[j].device.id == ts[k].device.id)
  }

  /**
   * The taken list names no device twice, names exactly the enabled candidates, and pairs each with the
   * first group that targets it.
   */
  lemma {:induction false} TakenIsFirst(ts: seq<Target>)
    ensures Distinct(Ids(Taken(ts)))
    ensures forall t | t in ts && t.device.enabled :: t.device.id in Ids(Taken(ts))
    ensures forall t :: t in Taken(ts) <==> exists k :: IsFirst(ts, k) && ts[k] == t
  {
    if ts != [] {
      var front, last, n := ts[..|ts| - 1], ts[|ts| - 1], |ts| - 1;
      assert ts == front + [last];
      TakenIsFirst(front);
      var taken := Taken(front);
      assert Ids(taken + [last]) == Ids(taken) + [last.device.id];
      forall k | 0 <= k < n ensures IsFirst(ts, k) <==> IsFirst(front, k) {}
      assert IsFirst(ts, n) <==> last.device.enabled && last.device.id !in Ids(taken) by {
        if last.device.id in Ids(taken) {
          var i :| 0 <= i < |taken| && taken[i].device.id == last.device.id;
          assert taken[i] in taken;
          var k :| IsFirst(front, k) && front[k] == taken[i];
          assert ts[k] == front[k];
        } else {
          forall j | 0 <= j < n && ts[j].device.enabled ensures ts[j].device.id != last.device.id {
            assert front[j] == ts[j];
          }
        }
      }
      forall t ensures t in Taken(ts) <==> exists k :: IsFirst(ts, k) && ts[k] == t {
        if t in taken {
          var k :| IsFirst(front, k) && front[k] == t;
          assert IsFirst(ts, k) && ts[k] == t;
        }
        if k :| IsFirst(ts, k) && ts[k] == t {
          if k < n {
            assert IsFirst(front, k) && front[k] == t;
          }
        }
      }
    }
  }

  /** The ids fired at are the enabled ones of the same scope as a compliance policy over the same lists. */
  lemma {:induction false} TakenIsEnabledScope(ts: seq<Target>, enabled: DeviceId -> bool)
    requires forall t | t in ts :: t.device.enabled == enabled(t.device.id)
    ensures Ids(Taken(ts)) == Filter(enabled, FirstOccurrences(Ids(ts)))
  {
    FirstOccurrencesFilter(enabled, Ids(ts));
    TakenIds(ts, enabled);
  }

  lemma {:induction false} TakenIds(ts: seq<Target>, enabled: DeviceId -> bool)
    requires forall t | t in ts :: t.device.enabled == enabled(t.device.id)
    ensures Ids(Taken(ts)) == FirstOccurrences(Filter(enabled, Ids(ts)))
  {
    if ts != [] {
      var front, last := ts[..|ts| - 1], ts[|ts| - 1];
      assert ts == front + [last];
      TakenIds(front, enabled);
      IdsAppend(front, last);
      IdsAppend(Taken(front), last);
      TakenStep(front, last);
      OneMoreId(Ids(front), last.device.id, enabled);
    }
  }

  lemma IdsAppend(ts: seq<Target>, t: Target)
    ensures Ids(ts + [t]) == Ids(ts) + [t.device.id]
  {
  }

  lemma TakenStep(ts: seq<Target>, t: Target)
    ensures Taken(ts + [t])
         == if t.device.enabled && t.device.id !in Ids(Taken(ts)) then Taken(ts) + [t] else Taken(ts)
  {
    assert (ts + [t])[..|ts|] == ts;
  }

  lemma OneMoreId(ids: seq<DeviceId>, id: DeviceId, enabled: DeviceId -> bool)
    ensures var before := FirstOccurrences(Filter(enabled, ids));
      FirstOccurrences(Filter(enabled, ids + [id])) == if enabled(id) && id !in before then before + [id] else before
  {
    FilterStep(enabled, ids, id);
    if enabled(id) {
      FirstOccurrencesStep(Filter(enabled, ids), id);
    } else {
      assert Filter(enabled, ids) + [] == Filter(enabled, ids);
    }
  }

  function DeviceIds(devices: seq<Device>): seq<DeviceId> {
    seq(|devices|, i requires 0 <= i < |devices| => devices[i].id)
  }

  function GroupIds(groups: seq<Group>): seq<seq<DeviceId>> {
    seq(|groups|, i requires 0 <= i < |groups| => DeviceIds(groups[i].devices))
  }

  lemma {:induction false} GroupTargetIds(groups: seq<Group>)
    ensures Ids(AllGroupTargets(groups)) == Concat(GroupIds(groups))
  {
    if groups != [] {
      var front, last := groups[..|groups| - 1], groups[|groups| - 1];
      GroupTargetIds(front);
      assert GroupIds(groups) == GroupIds(front) + [DeviceIds(last.devices)];
      ConcatStep(GroupIds(front), DeviceIds(last.devices));
      assert Ids(GroupTargets(last)) == DeviceIds(last.devices);
    }
  }

  lemma FiredIdsMatchScope(job: Job, policy: Compliance.Policy, enabled: DeviceId -> bool)
    requires policy.groups == GroupIds(job.groups) && policy.devices == DeviceIds(job.devices)
    requires forall t | t in Candidates(job) :: t.device.enabled == enabled(t.device.id)
    ensures Ids(Taken(Candidates(job))) == Filter(enabled, Compliance.Scope(policy))
  {
    TakenIsEnabledScope(Candidates(job), enabled);
    CandidateIds(job);
  }

  lemma CandidateIds(job: Job)
    ensures Ids(Candidates(job)) == Concat(GroupIds(job.groups)) + DeviceIds(job.devices)
  {
    GroupTargetIds(job.groups);
    assert Ids(DirectTargets(job.devices)) == DeviceIds(job.devices);
  }

  // ----- streams and credentials -----

  /** Python's `a or b` on optional strings: an empty string counts as absent. */
  function OrPool(a: Option<string>, b: Option<string>): Option<string> {
    if a.Some? && a.value != "" then a else b
  }

  /** The stream the pre-flight check counts a target against. */
  function PreflightStream(base: string, t: Target): string {
    var groupPool := if t.group.Some? then t.group.value.pool else None;
    JobQueue.JobStreamFor(base, OrPool(t.device.pool, groupPool))
  }

  function CredentialFor(t: Target, default: Option<Credential>): Option<Credential> {
    t.device.credential
      .OrElse(if t.group.Some? then t.group.value.defaultCredential else None)
      .OrElse(default)
  }

  /** The pool a published spec carries, and with it the stream it goes to. */
  function SpecStream(base: string, t: Target): string {
    var groupPool := if t.group.Some? then t.group.value.pool else None;
    JobQueue.JobStreamFor(base, OrPool(OrPool(t.device.pool, groupPool), None))
  }

  /** What is published for a target: the stream it goes to, and of its contents the run, device and credential. */
  datatype Message = Message(stream: string, run: RunId, device: DeviceId, credential: Credential)

  function SpecFor(base: string, t: Target, r: RunId, credential: Credential): Message {
    Message(SpecStream(base, t), r, t.device.id, credential)
  }

  function On(base: string, ts: seq<Target>, stream: string): nat {
    if ts == [] then 0
    else On(base, ts[..|ts| - 1], stream) + if PreflightStream(base, ts[|ts| - 1]) == stream then 1 else 0
  }

  /** Messages published for the targets that have a credential, in order. */
  function Sent(base: string, ts: seq<Target>, first: RunId, default: Option<Credential>): seq<Message> {
    if ts == [] then []
    else
      var t := ts[|ts| - 1];
      Sent(base, ts[..|ts| - 1], first, default)
      + if CredentialFor(t, default).Some? then [SpecFor(base, t, first + |ts| - 1, CredentialFor(t, default).value)] else []
  }

  lemma SentStep(base: string, ts: seq<Target>, i: nat, first: RunId, default: Option<Credential>)
    requires i < |ts|
    ensures CredentialFor(ts[i], default).Some? ==>
      Sent(base, ts[..i + 1], first, default)
      == Sent(base, ts[..i], first, default) + [SpecFor(base, ts[i], first + i, CredentialFor(ts[i], default).value)]
    ensures CredentialFor(ts[i], default).None? ==>
      Sent(base, ts[..i + 1], first, default) == Sent(base, ts[..i], first, default)
  {
    assert ts[..i + 1][..i] == ts[..i];
  }

  function SentOn(sent: seq<Message>, stream: string): nat {
    if sent == [] then 0
    else SentOn(sent[..|sent| - 1], stream) + if sent[|sent| - 1].stream == stream then 1 else 0
  }

  function Bare(base: string, ts: seq<Target>, default: Option<Credential>, stream: string): nat {
    if ts == [] then 0
    else
      var t := ts[|ts| - 1];
      Bare(base, ts[..|ts| - 1], default, stream)
      + if CredentialFor(t, default).None? && PreflightStream(base, t) == stream then 1 else 0
  }

  /** The pre-flight count of a stream is what is later published on it, plus the runs without a credential. */
  lemma {:induction false} PreflightExact(
    base: string, ts: seq<Target>, first: RunId, default: Option<Credential>, stream: string)
    ensures On(base, ts, stream)
         == SentOn(Sent(base, ts, first, default), stream) + Bare(base, ts, default, stream)
  {
    if ts != [] {
      var front, t := ts[..|ts| - 1], ts[|ts| - 1];
      PreflightExact(base, front, first, default, stream);
      SameStream(base, t);
      SentOnNext(base, ts, first, default, stream);
    }
  }

  lemma SameStream(base: string, t: Target)
    ensures SpecStream(base, t) == PreflightStream(base, t)
  {
  }

  lemma SentOnNext(base: string, ts: seq<Target>, first: RunId, default: Option<Credential>, stream: string)
    requires ts != []
    ensures var (front, t) := (ts[..|ts| - 1], ts[|ts| - 1]);
      SentOn(Sent(base, ts, first, default), stream) == SentOn(Sent(base, front, first, default), stream)
        + if CredentialFor(t, default).Some? && SpecStream(base, t) == stream then 1 else 0
  {
    var t, before := ts[|ts| - 1], Sent(base, ts[..|ts| - 1], first, default);
    assert before + [] == before;
    if CredentialFor(t, default).Some? {
      SentOnStep(before, SpecFor(base, t, first + |ts| - 1, CredentialFor(t, default).value), stream);
    }
  }

  lemma SentOnStep(sent: seq<Message>, m: Message, stream: string)
    ensures SentOn(sent + [m], stream) == SentOn(sent, stream) + if m.stream == stream then 1 else 0
  {
    assert (sent + [m])[..|sent|] == sent;
  }

  // ----- what a target gets -----

  /** Neither the device, nor the group that targets it, nor the system has a credential. */
  ghost predicate NoCredential(t: Target, default: Option<Credential>) {
    t.device.credential.None? && (t.group.None? || t.group.value.defaultCredential.None?) && default.None?
  }

  /** The message of a target goes to the stream of the device's pool, else of its group's, else to the base stream;
      it carries the device's own credential, else its group's, else the default. */
  ghost predicate IsMessage(m: Message, t: Target, r: RunId, base: string, default: Option<Credential>) {
    && m.run == r && m.device == t.device.id
    && m.stream == (
         if t.device.pool.Some? && t.device.pool.value != "" then base + ":" + t.device.pool.value
         else if t.group.Some? && t.group.value.pool.Some? && t.group.value.pool.value != ""
         then base + ":" + t.group.value.pool.value
         else base)
    && Some(m.credential) == (
         if t.device.credential.Some? then t.device.credential
         else if t.group.Some? && t.group.value.defaultCredential.Some? then t.group.value.defaultCredential
         else default)
  }

  lemma SpecIsMessage(base: string, t: Target, r: RunId, default: Option<Credential>)
    ensures CredentialFor(t, default).None? <==> NoCredential(t, default)
    ensures CredentialFor(t, default).Some? ==> IsMessage(SpecFor(base, t, r, CredentialFor(t, default).value), t, r, base, default)
  {
  }

  /** The pre-flight check counts a target on the stream its message will go to. */
  lemma PreflightIsMessages(base: string, t: Target, m: Message, r: RunId, default: Option<Credential>)
    requires IsMessage(m, t, r, base, default)
    ensures PreflightStream(base, t) == m.stream
  {
  }

  /** A run without any credential is in no message; any other is in one, its own. */
  ghost predicate Messaged(t: Target, r: RunId, base: string, default: Option<Credential>, sent: seq<Message>) {
    if NoCredential(t, default) then forall m | m in sent :: m.run != r
    else exists m :: m in sent && IsMessage(m, t, r, base, default)
  }

  /** Messages in the order of their runs, one for each at most. */
  ghost predicate Ascending(sent: seq<Message>, first: RunId, end: RunId) {
    && (forall k | 0 <= k < |sent| :: first <= sent[k].run < end)
    && forall j, k | 0 <= j < k < |sent| :: sent[j].run < sent[k].run
  }

  ghost predicate MessagesOf(ts: seq<Target>, first: RunId, base: string, default: Option<Credential>, sent: seq<Message>) {
    && Ascending(sent, first, first + |ts|)
    && forall i | 0 <= i < |ts| :: Messaged(ts[i], first + i, base, default, sent)
  }

  lemma {:induction false} SentIs(base: string, ts: seq<Target>, first: RunId, default: Option<Credential>)
    ensures MessagesOf(ts, first, base, default, Sent(base, ts, first, default)) == true
  {
    if ts != [] {
      var n := |ts| - 1;
      var before, sent := Sent(base, ts[..n], first, default), Sent(base, ts, first, default);
      SentIs(base, ts[..n], first, default);
      SentNext(base, ts, n, first, default);
      MessagesGrow(ts, first, base, default, before, sent);
    }
  }

  lemma MessagesGrow(ts: seq<Target>, first: RunId, base: string, default: Option<Credential>, before: seq<Message>, sent: seq<Message>)
    requires ts != [] && MessagesOf(ts[..|ts| - 1], first, base, default, before) == true
    requires Grows(ts[|ts| - 1], first + |ts| - 1, base, default, before, sent) == true
    ensures MessagesOf(ts, first, base, default, sent) == true
  {
    var n := |ts| - 1;
    AscendingStill(ts[n], first, n, base, default, before, sent);
    forall i | 0 <= i < |ts| ensures Messaged(ts[i], first + i, base, default, sent) == true {
      assert i < n ==> ts[..n][i] == ts[i];
      MessagedStill(ts[n], n, ts[i], i, first, base, default, before, sent);
    }
  }

  /** One more message, or none, for one more target. */
  ghost predicate Grows(t: Target, r: RunId, base: string, default: Option<Credential>, before: seq<Message>, sent: seq<Message>) {
    if NoCredential(t, default) then sent == before
    else |sent| == |before| + 1 && before == sent[..|before|] && IsMessage(sent[|before|], t, r, base, default)
  }

  lemma SentNext(base: string, ts: seq<Target>, n: nat, first: RunId, default: Option<Credential>)
    requires n + 1 == |ts|
    ensures Grows(ts[n], first + n, base, default, Sent(base, ts[..n], first, default), Sent(base, ts, first, default)) == true
  {
    var before := Sent(base, ts[..n], first, default);
    SpecIsMessage(base, ts[n], first + n, default);
    assert before + [] == before;
  }

  lemma AscendingStill(
    t: Target, first: RunId, n: nat, base: string, default: Option<Credential>, before: seq<Message>, sent: seq<Message>)
    requires Ascending(before, first, first + n) == true && Grows(t, first + n, base, default, before, sent) == true
    ensures Ascending(sent, first, first + n + 1) == true
  {
    forall k | 0 <= k < |before| ensures sent[k] == before[k] {}
  }

  lemma MessagedStill(
    last: Target, n: nat, t: Target, i: nat, first: RunId, base: string, default: Option<Credential>,
    before: seq<Message>, sent: seq<Message>)
    requires i <= n && Ascending(before, first, first + n) == true && Grows(last, first + n, base, default, before, sent) == true
    requires if i < n then Messaged(t, first + i, base, default, before) == true else t == last
    ensures Messaged(t, first + i, base, default, sent) == true
  {
    if NoCredential(t, default) {
      forall m | m in sent ensures m.run != first + i {
        if m !in before {
          assert m == sent[|before|];
        }
      }
    } else if i < n {
      var m :| m in before && IsMessage(m, t, first + i, base, default);
      assert m in sent;
    } else {
      assert sent[|before|] in sent;
    }
  }

  // ----- firing -----

  function Slots(ts: seq<Target>, first: RunId, default: Option<Credential>): seq<Slot> {
    seq(|ts|, i requires 0 <= i < |ts| => Slot(first + i, ts[i].device.id, CredentialFor(ts[i], default).Some?))
  }

  /** Publishing every slot that is left. */
  ghost function PublishAll(t: Txn, at: Time): Txn
    requires forall i | 0 <= i < |t.todo| :: t.todo[i].run in t.runs
    decreases |t.todo|
  {
    if t.todo == [] then t else PublishAll(PublishNext(t, at), at)
  }

  /** Whether some stream the batch would use is too full for it. */
  ghost predicate Crowded(base: string, ts: seq<Target>, pressure: string -> nat, highWater: int) {
    exists s :: On(base, ts, s) > 0 && pressure(s) + On(base, ts, s) > highWater
  }

  /** With the pressures of the streams and the configured mark, that is: the check of some used stream refuses what the
      batch would put on it. */
  lemma CrowdedIsRefused(
    base: string, ts: seq<Target>, streams: string -> JobQueue.Stream, pressure: string -> nat, maxLen: nat, ratio: real)
    requires forall s :: pressure(s) == BackPressure.Pressure(streams(s))
    ensures Crowded(base, ts, pressure, BackPressure.HighWater(maxLen, ratio)) <==>
      exists s :: On(base, ts, s) > 0 && BackPressure.Refused(streams(s), On(base, ts, s), maxLen, ratio)
  {
  }

  /** The dispatcher's session: the rows of the batch it creates and the messages it sends. */
  class Session {
    var batch: Batch
    var runs: Runs
    var sent: seq<Message>

    constructor (batch: Batch)
      ensures runs == map[] && sent == []
    {
      this.batch, runs, sent := batch, map[], [];
    }

    /**
     * Targets, admits, creates and publishes. What it leaves in the session is the protocol's dispatch:
     * opened over one slot per target, refused when some stream is too full, else published to the end.
     * A refusal is logged first; without a logger to hand (`logs`) that raises, before any row exists.
     */
    method FireJob(job: Job, base: string, default: Option<Credential>, pressure: string -> nat, highWater: int,
                   b: BatchId, first: RunId, now: Time, logs: bool)
      returns (targets: seq<Target>, refused: bool, raised: bool)
      requires runs == map[] && sent == []
      modifies this
      ensures targets == Taken(Candidates(job))
      ensures refused <==> Crowded(base, targets, pressure, highWater)
      ensures raised <==> refused && !logs
      ensures raised ==> runs == map[] && sent == [] && batch == old(batch)
      ensures !raised ==>
        && Txn(batch, runs, []) == PublishAll(OpenTxn(b, job.kind, Slots(targets, first, default), refused, now), now)
        && sent == if refused then [] else Sent(base, targets, first, default)
      ensures refused && !raised ==> AllFailed(job.kind, b, targets, first, default, now, batch, runs) == true
      ensures !refused ==>
        && Admitted(job.kind, b, targets, first, default, now, batch, runs) == true
        && MessagesOf(targets, first, base, default, sent) == true
    {
      targets := TargetDevices(job);
      refused := CheckCapacity(base, targets, pressure, highWater);
      raised := refused && !logs;
      if raised {
        return;
      }
      ghost var slots := Slots(targets, first, default);
      CreateRows(targets, slots, job.kind, b, first, now);
      if refused {
        RefuseAll(slots, job.kind, b, first, now, |targets|);
        RefusedIsFailed(job.kind, b, targets, first, default, now, slots);
      } else {
        PublishAdmitted(targets, base, default, slots, job.kind, b, first, now);
      }
    }

    /** The publishing loop of an admitted batch, over its fresh rows. */
    method PublishAdmitted(targets: seq<Target>, base: string, default: Option<Credential>, ghost slots: seq<Slot>,
                           ghost kind: Kind, ghost b: BatchId, first: RunId, now: Time)
      requires slots == Slots(targets, first, default) && sent == []
      requires batch == NewBatch(kind, slots, false, now) && runs == NewRuns(b, slots, false, now)
      modifies this
      ensures forall i | 0 <= i < |slots| :: slots[i].run in NewRuns(b, slots, false, now)
      ensures Txn(batch, runs, []) == PublishAll(OpenTxn(b, kind, slots, false, now), now)
      ensures sent == Sent(base, targets, first, default)
      ensures Admitted(kind, b, targets, first, default, now, batch, runs) == true
      ensures MessagesOf(targets, first, base, default, sent) == true
    {
      PublishTargets(targets, base, default, slots, first, now);
      DispatchIs(kind, b, targets, first, default, now, base, batch, runs, sent);
    }

    /** Counts the incoming jobs per stream, then compares each count with the room left. */
    method CheckCapacity(base: string, targets: seq<Target>, pressure: string -> nat, highWater: int)
      returns (refused: bool)
      ensures refused <==> Crowded(base, targets, pressure, highWater)
    {
      var counts: map<string, nat> := map[];
      for i := 0 to |targets|
        invariant forall s :: GetCount(counts, s) == On(base, targets[..i], s)
        invariant forall s | s in counts :: counts[s] > 0
      {
        assert targets[..i + 1][..i] == targets[..i];
        var stream := PreflightStream(base, targets[i]);
        counts := counts[stream := GetCount(counts, stream) + 1];
      }
      assert targets[..|targets|] == targets;
      refused := false;
      var todo := counts.Keys;
      while todo != {} && !refused
        invariant todo <= counts.Keys
        invariant refused ==> Crowded(base, targets, pressure, highWater)
        invariant !refused ==> forall s | s in counts && s !in todo :: pressure(s) + counts[s] <= highWater
        decreases |todo|
      {
        ghost var some := Pick(todo);
        var s :| s in todo;
        assert On(base, targets, s) == GetCount(counts, s);
        refused := pressure(s) + counts[s] > highWater;
        todo := todo - {s};
      }
      if !refused {
        forall s | On(base, targets, s) > 0 ensures pressure(s) + On(base, targets, s) <= highWater {
          assert On(base, targets, s) == GetCount(counts, s);
        }
      }
    }

    /** The batch row with its exact total, and one pending run per target. */
    method CreateRows(targets: seq<Target>, ghost slots: seq<Slot>, kind: Kind, b: BatchId, first: RunId, now: Time)
      requires runs == map[] && Numbered(slots, first) && |slots| == |targets|
      requires forall i | 0 <= i < |slots| :: slots[i].device == targets[i].device.id
      modifies this`batch, this`runs
      ensures batch == NewBatch(kind, slots, false, now) && runs == NewRuns(b, slots, false, now)
    {
      batch := Batch(kind, |targets|, 0, 0, now, None, None);
      for i := 0 to |targets|
        invariant batch == NewBatch(kind, slots, false, now)
        invariant forall r :: r in runs <==> first <= r < first + i
        invariant forall r | r in runs ::
          runs[r] == Run(Some(b), targets[r - first].device.id, Pending, None, None, None)
      {
        runs := runs[first + i := Run(Some(b), targets[i].device.id, Pending, None, None, None)];
      }
      NumberedRuns(slots, first);
      assert runs.Keys == SlotRuns(slots) by {
        forall r ensures r in runs.Keys <==> r in SlotRuns(slots) {}
      }
      forall r | r in runs ensures runs[r] == NewRuns(b, slots, false, now)[r] {
        assert DeviceOf(slots, first + (r - first)) == slots[r - first].device;
      }
      SameMap(runs, NewRuns(b, slots, false, now));
    }

    /** Fails every run and finishes the batch. */
    method RefuseAll(ghost slots: seq<Slot>, kind: Kind, b: BatchId, first: RunId, now: Time, n: nat)
      requires Numbered(slots, first) && n == |slots|
      requires batch == NewBatch(kind, slots, false, now) && runs == NewRuns(b, slots, false, now)
      modifies this`batch, this`runs
      ensures batch == NewBatch(kind, slots, true, now) && runs == NewRuns(b, slots, true, now)
    {
      NumberedRuns(slots, first);
      for i := 0 to n
        invariant batch == NewBatch(kind, slots, false, now).(failed := i)
        invariant runs.Keys == SlotRuns(slots)
        invariant forall r | r in runs :: runs[r] == NewRuns(b, slots, r - first < i, now)[r]
      {
        var run := runs[first + i];
        runs := runs[first + i := run.(status := Failed, finishedAt := Some(now))];
        batch := batch.(failed := batch.failed + 1);
      }
      batch := batch.(finishedAt := Some(now));
      forall r | r in runs ensures runs[r] == NewRuns(b, slots, true, now)[r] {
        assert r in SlotRuns(slots);
      }
      SameMap(runs, NewRuns(b, slots, true, now));
    }

    /** One message per target with a credential; a run without one fails on the spot. */
    method PublishTargets(targets: seq<Target>, base: string, default: Option<Credential>,
                          ghost slots: seq<Slot>, first: RunId, now: Time)
      requires sent == [] && slots == Slots(targets, first, default) && runs.Keys == SlotRuns(slots)
      modifies this
      ensures forall i | 0 <= i < |slots| :: slots[i].run in old(runs)
      ensures Txn(batch, runs, []) == PublishAll(Txn(old(batch), old(runs), slots), now)
      ensures sent == Sent(base, targets, first, default)
    {
      forall i | 0 <= i < |slots| ensures slots[i].run in SlotRuns(slots) {}
      ghost var all := PublishAll(Txn(batch, runs, slots), now);
      assert slots[0..] == slots;
      for i := 0 to |targets|
        invariant Leads(batch, runs, slots[i..], now, all) == true
        invariant sent == Sent(base, targets[..i], first, default)
      {
        ghost var batch', runs' := batch, runs;
        LeadsFirst(batch, runs, slots, i, now, all);
        PublishTarget(targets[i], base, default, first + i, now);
        LeadsOn(batch', runs', slots, i, now, all, batch, runs);
        SentStep(base, targets, i, first, default);
      }
      assert targets[..|targets|] == targets;
    }

    method PublishTarget(t: Target, base: string, default: Option<Credential>, r: RunId, now: Time)
      requires r in runs
      modifies this
      ensures if CredentialFor(t, default).Some?
        then batch == old(batch) && runs == old(runs) && sent == old(sent) + [SpecFor(base, t, r, CredentialFor(t, default).value)]
        else batch == old(batch).(failed := old(batch).failed + 1) && runs == FailOne(old(runs), r, now) && sent == old(sent)
    {
      if CredentialFor(t, default).None? {
        runs := runs[r := runs[r].(status := Failed, finishedAt := Some(now))];
        batch := batch.(failed := batch.failed + 1);
        return;
      }
      sent := sent + [SpecFor(base, t, r, CredentialFor(t, default).value)];
    }
  }

  function FailOne(runs: Runs, r: RunId, now: Time): Runs
    requires r in runs
  {
    runs[r := runs[r].(status := Failed, finishedAt := Some(now))]
  }

  lemma SettleOne(runs: Runs, r: RunId, now: Time)
    requires r in runs
    ensures Settle(runs, {r}, Failed, now) == FailOne(runs, r, now)
  {
    SameMap(Settle(runs, {r}, Failed, now), FailOne(runs, r, now));
  }

  /** One slot of the publishing loop. */
  lemma PublishOne(batch: Batch, runs: Runs, todo: seq<Slot>, now: Time)
    requires todo != [] && forall k | 0 <= k < |todo| :: todo[k].run in runs
    ensures PublishAll(Txn(batch, runs, todo), now)
      == if todo[0].hasCredential then PublishAll(Txn(batch, runs, todo[1..]), now)
         else PublishAll(Txn(batch.(failed := batch.failed + 1), FailOne(runs, todo[0].run, now), todo[1..]), now)
  {
    var t := Txn(batch, runs, todo);
    SettleOne(runs, todo[0].run, now);
    var next := PublishNext(t, now);
    assert next == if todo[0].hasCredential then Txn(batch, runs, todo[1..])
      else Txn(batch.(failed := batch.failed + 1), FailOne(runs, todo[0].run, now), todo[1..]);
    assert PublishAll(t, now) == PublishAll(next, now);
  }

  function FailedRuns(runs: Runs): set<RunId> {
    set r | r in runs && runs[r].status == Failed
  }

  lemma FailOneMore(runs: Runs, r: RunId, now: Time)
    requires r in runs && runs[r].status != Failed
    ensures |FailedRuns(FailOne(runs, r, now))| == |FailedRuns(runs)| + 1
  {
    forall x ensures x in FailedRuns(FailOne(runs, r, now)) <==> x in FailedRuns(runs) || x == r {}
    assert FailedRuns(FailOne(runs, r, now)) == FailedRuns(runs) + {r};
  }

  /** Slots still to publish: pending runs, each once. */
  ghost predicate Publishable(runs: Runs, todo: seq<Slot>) {
    && (forall i | 0 <= i < |todo| :: todo[i].run in runs && runs[todo[i].run].status == Pending)
    && forall i, j | 0 <= i < j < |todo| :: todo[i].run != todo[j].run
  }

  /** What publishing leaves of a run: failed if it is a slot without a credential, else as it was. */
  ghost predicate RowAfter(runs: Runs, todo: seq<Slot>, now: Time, end: Runs, r: RunId)
    requires r in runs && r in end
  {
    end[r] == if exists s :: s in todo && s.run == r && !s.hasCredential
              then runs[r].(status := Failed, finishedAt := Some(now)) else runs[r]
  }

  /** After all slots: the rows of the runs, and a batch that counts each failed run once. */
  ghost predicate RowsAfter(batch: Batch, runs: Runs, todo: seq<Slot>, now: Time, end: Txn) {
    && end.todo == [] && end.runs.Keys == runs.Keys
    && (forall r | r in runs :: RowAfter(runs, todo, now, end.runs, r))
    && end.batch == batch.(failed := end.batch.failed)
    && end.batch.failed - batch.failed == |FailedRuns(end.runs)| - |FailedRuns(runs)|
  }

  lemma {:induction false} PublishAllRows(batch: Batch, runs: Runs, todo: seq<Slot>, now: Time)
    requires Publishable(runs, todo)
    ensures RowsAfter(batch, runs, todo, now, PublishAll(Txn(batch, runs, todo), now)) == true
    decreases |todo|
  {
    if todo != [] {
      PublishOne(batch, runs, todo, now);
      var (slot, rest) := (todo[0], todo[1..]);
      assert todo == [slot] + rest;
      if slot.hasCredential {
        PublishAllRows(batch, runs, rest, now);
        RowsSkip(batch, runs, slot, rest, now, PublishAll(Txn(batch, runs, rest), now));
      } else {
        var batch', runs' := batch.(failed := batch.failed + 1), FailOne(runs, slot.run, now);
        PublishAllRows(batch', runs', rest, now);
        FailOneMore(runs, slot.run, now);
        forall s | s in rest ensures s.run != slot.run {
          var k :| 0 <= k < |rest| && rest[k] == s;
          assert todo[k + 1] == s;
        }
        RowsFail(batch, runs, slot, rest, now, PublishAll(Txn(batch', runs', rest), now));
      }
    }
  }

  lemma RowsSkip(batch: Batch, runs: Runs, slot: Slot, rest: seq<Slot>, now: Time, end: Txn)
    requires slot.hasCredential && RowsAfter(batch, runs, rest, now, end)
    ensures RowsAfter(batch, runs, [slot] + rest, now, end) == true
  {
    forall r | r in runs ensures RowAfter(runs, [slot] + rest, now, end.runs, r) == true {
      assert RowAfter(runs, rest, now, end.runs, r);
    }
  }

  lemma RowsFail(batch: Batch, runs: Runs, slot: Slot, rest: seq<Slot>, now: Time, end: Txn)
    requires slot.run in runs && !slot.hasCredential && forall s | s in rest :: s.run != slot.run
    requires RowsAfter(batch.(failed := batch.failed + 1), FailOne(runs, slot.run, now), rest, now, end)
    requires |FailedRuns(FailOne(runs, slot.run, now))| == |FailedRuns(runs)| + 1
    ensures RowsAfter(batch, runs, [slot] + rest, now, end) == true
  {
    var runs' := FailOne(runs, slot.run, now);
    forall r | r in runs ensures RowAfter(runs, [slot] + rest, now, end.runs, r) == true {
      assert RowAfter(runs', rest, now, end.runs, r);
      assert slot in [slot] + rest;
    }
  }

  /** The rows of an admitted batch: one run per target, failed exactly when it has no credential. */
  ghost predicate Admitted(
    kind: Kind, b: BatchId, ts: seq<Target>, first: RunId, default: Option<Credential>, now: Time, batch: Batch, runs: Runs)
  {
    && RunsOf(b, ts, false, first, default, now, runs)
    && batch == Batch(kind, |ts|, 0, |FailedRuns(runs)|, now, None, None)
  }

  /** One run per target and no other; when refused all failed, else those without a credential. */
  ghost predicate RunsOf(
    b: BatchId, ts: seq<Target>, refused: bool, first: RunId, default: Option<Credential>, now: Time, runs: Runs)
  {
    && Spans(runs, first, |ts|)
    && (forall i: nat | i < |ts| :: RunOf(b, ts, i, refused, first, default, now, runs))
  }

  /** The runs are numbered from the first on. */
  ghost predicate Spans(runs: Runs, first: RunId, n: nat) {
    forall r :: r in runs <==> first <= r < first + n
  }

  /** The run of a target: failed at once when the batch is refused or it has no credential, else pending. */
  ghost predicate RunOf(
    b: BatchId, ts: seq<Target>, i: nat, refused: bool, first: RunId, default: Option<Credential>, now: Time, runs: Runs)
    requires i < |ts|
  {
    var failed := refused || NoCredential(ts[i], default);
    && first + i in runs
    && runs[first + i]
    == Run(Some(b), ts[i].device.id, if failed then Failed else Pending, if failed then Some(now) else None, None, None)
  }

  lemma SlotsPublishable(b: BatchId, slots: seq<Slot>, first: RunId, now: Time)
    requires Numbered(slots, first)
    ensures Publishable(NewRuns(b, slots, false, now), slots) == true
  {
    forall i | 0 <= i < |slots| ensures slots[i].run in SlotRuns(slots) {}
  }

  lemma PublishedIsAdmitted(
    kind: Kind, b: BatchId, ts: seq<Target>, first: RunId, default: Option<Credential>, now: Time, slots: seq<Slot>, end: Txn)
    requires slots == Slots(ts, first, default)
    requires RowsAfter(NewBatch(kind, slots, false, now), NewRuns(b, slots, false, now), slots, now, end) == true
    ensures Admitted(kind, b, ts, first, default, now, end.batch, end.runs) == true
  {
    EndRuns(NewBatch(kind, slots, false, now), NewRuns(b, slots, false, now), slots, now, end);
    EndBatch(kind, b, slots, now, end);
    EndRows(b, ts, first, default, now, slots, end.runs);
  }

  /** The dispatch of an admitted batch, row by row and message by message. */
  lemma DispatchIs(
    kind: Kind, b: BatchId, ts: seq<Target>, first: RunId, default: Option<Credential>, now: Time, base: string,
    batch: Batch, runs: Runs, sent: seq<Message>)
    requires forall i | 0 <= i < |ts| :: Slots(ts, first, default)[i].run in NewRuns(b, Slots(ts, first, default), false, now)
    requires Txn(batch, runs, []) == PublishAll(OpenTxn(b, kind, Slots(ts, first, default), false, now), now)
    requires sent == Sent(base, ts, first, default)
    ensures Admitted(kind, b, ts, first, default, now, batch, runs) == true
    ensures MessagesOf(ts, first, base, default, sent) == true
  {
    var slots := Slots(ts, first, default);
    EndOfAll(kind, b, slots, first, now, Txn(batch, runs, []));
    PublishedIsAdmitted(kind, b, ts, first, default, now, slots, Txn(batch, runs, []));
    SentIs(base, ts, first, default);
  }

  /** What publishing all slots of a new dispatch ends in. */
  lemma EndOfAll(kind: Kind, b: BatchId, slots: seq<Slot>, first: RunId, now: Time, end: Txn)
    requires Numbered(slots, first) && forall i | 0 <= i < |slots| :: slots[i].run in NewRuns(b, slots, false, now)
    requires end == PublishAll(Txn(NewBatch(kind, slots, false, now), NewRuns(b, slots, false, now), slots), now)
    ensures RowsAfter(NewBatch(kind, slots, false, now), NewRuns(b, slots, false, now), slots, now, end) == true
  {
    SlotsPublishable(b, slots, first, now);
    PublishAllRows(NewBatch(kind, slots, false, now), NewRuns(b, slots, false, now), slots, now);
  }

  lemma EndRuns(batch: Batch, runs: Runs, slots: seq<Slot>, now: Time, end: Txn)
    requires RowsAfter(batch, runs, slots, now, end) == true
    ensures end.runs.Keys == runs.Keys && forall r | r in runs :: RowAfter(runs, slots, now, end.runs, r) == true
  {
  }

  lemma EndBatch(kind: Kind, b: BatchId, slots: seq<Slot>, now: Time, end: Txn)
    requires RowsAfter(NewBatch(kind, slots, false, now), NewRuns(b, slots, false, now), slots, now, end) == true
    ensures end.batch == Batch(kind, |slots|, 0, |FailedRuns(end.runs)|, now, None, None)
  {
    NoneFailed(b, slots, now);
  }

  lemma NoneFailed(b: BatchId, slots: seq<Slot>, now: Time)
    ensures FailedRuns(NewRuns(b, slots, false, now)) == {}
  {
    forall r ensures r !in FailedRuns(NewRuns(b, slots, false, now)) {}
  }

  lemma EndKeys(slots: seq<Slot>, first: RunId, runs: Runs)
    requires Numbered(slots, first) && runs.Keys == SlotRuns(slots)
    ensures Spans(runs, first, |slots|) == true
  {
    NumberedRuns(slots, first);
  }

  lemma EndRows(b: BatchId, ts: seq<Target>, first: RunId, default: Option<Credential>, now: Time, slots: seq<Slot>, end: Runs)
    requires slots == Slots(ts, first, default) && end.Keys == SlotRuns(slots)
    requires forall r | r in SlotRuns(slots) :: RowAfter(NewRuns(b, slots, false, now), slots, now, end, r) == true
    ensures RunsOf(b, ts, false, first, default, now, end) == true
  {
    EndKeys(slots, first, end);
    forall i: nat | i < |ts| ensures RunOf(b, ts, i, false, first, default, now, end) == true {
      EndRow(b, ts, first, default, now, slots, end, i);
    }
  }

  lemma EndRow(
    b: BatchId, ts: seq<Target>, first: RunId, default: Option<Credential>, now: Time, slots: seq<Slot>, end: Runs, i: nat)
    requires slots == Slots(ts, first, default) && end.Keys == SlotRuns(slots) && i < |ts|
    requires forall r | r in SlotRuns(slots) :: RowAfter(NewRuns(b, slots, false, now), slots, now, end, r) == true
    ensures RunOf(b, ts, i, false, first, default, now, end) == true
  {
    assert slots[i].run == first + i;
    RunPublished(b, ts, first, default, now, slots, end, i);
  }

  lemma RunPublished(
    b: BatchId, ts: seq<Target>, first: RunId, default: Option<Credential>, now: Time, slots: seq<Slot>, end: Runs, i: nat)
    requires slots == Slots(ts, first, default) && i < |ts|
    requires first + i in SlotRuns(slots) && first + i in end
    requires RowAfter(NewRuns(b, slots, false, now), slots, now, end, first + i) == true
    ensures RunOf(b, ts, i, false, first, default, now, end) == true
  {
    DeviceAt(slots, first, i);
    SpecIsMessage("", ts[i], first + i, default);
    assert slots[i] in slots;
    forall s | s in slots && s.run == first + i ensures s == slots[i] {
      var k :| 0 <= k < |slots| && slots[k] == s;
    }
  }

  /** The rows of a refused batch: every run failed, each counted, the batch finished. */
  ghost predicate AllFailed(
    kind: Kind, b: BatchId, ts: seq<Target>, first: RunId, default: Option<Credential>, now: Time, batch: Batch, runs: Runs)
  {
    && RunsOf(b, ts, true, first, default, now, runs)
    && batch == Batch(kind, |ts|, 0, |ts|, now, Some(now), None)
  }

  lemma RefusedIsFailed(
    kind: Kind, b: BatchId, ts: seq<Target>, first: RunId, default: Option<Credential>, now: Time, slots: seq<Slot>)
    requires slots == Slots(ts, first, default)
    ensures AllFailed(kind, b, ts, first, default, now, NewBatch(kind, slots, true, now), NewRuns(b, slots, true, now)) == true
  {
    EndKeys(slots, first, NewRuns(b, slots, true, now));
    forall i: nat | i < |ts| ensures RunOf(b, ts, i, true, first, default, now, NewRuns(b, slots, true, now)) == true
    {
      RefusedRow(b, ts, first, default, now, slots, i);
    }
  }

  lemma RefusedRow(b: BatchId, ts: seq<Target>, first: RunId, default: Option<Credential>, now: Time, slots: seq<Slot>, i: nat)
    requires slots == Slots(ts, first, default) && i < |ts|
    ensures RunOf(b, ts, i, true, first, default, now, NewRuns(b, slots, true, now)) == true
  {
    assert slots[i].run == first + i;
    DeviceAt(slots, first, i);
  }

  /** Publishing the rest of the slots ends in the given dispatch. */
  ghost predicate Leads(batch: Batch, runs: Runs, todo: seq<Slot>, now: Time, all: Txn) {
    (forall k | 0 <= k < |todo| :: todo[k].run in runs) && PublishAll(Txn(batch, runs, todo), now) == all
  }

  lemma LeadsFirst(batch: Batch, runs: Runs, slots: seq<Slot>, i: nat, now: Time, all: Txn)
    requires i < |slots| && Leads(batch, runs, slots[i..], now, all) == true
    ensures slots[i].run in runs
  {
    assert slots[i..][0] == slots[i];
  }

  lemma LeadsOn(batch: Batch, runs: Runs, slots: seq<Slot>, i: nat, now: Time, all: Txn, batch': Batch, runs': Runs)
    requires i < |slots| && Leads(batch, runs, slots[i..], now, all) == true && slots[i].run in runs
    requires if slots[i].hasCredential then batch' == batch && runs' == runs
      else batch' == batch.(failed := batch.failed + 1) && runs' == FailOne(runs, slots[i].run, now)
    ensures Leads(batch', runs', slots[i + 1..], now, all) == true
  {
    PublishOne(batch, runs, slots[i..], now);
    assert slots[i..][1..] == slots[i + 1..];
  }

  /** Run ids are handed out consecutively. */
  ghost predicate Numbered(slots: seq<Slot>, first: RunId) {
    forall i | 0 <= i < |slots| :: slots[i].run == first + i
  }

  lemma NumberedRuns(slots: seq<Slot>, first: RunId)
    requires Numbered(slots, first)
    ensures forall r :: r in SlotRuns(slots) <==> first <= r < first + |slots|
    ensures forall k | 0 <= k < |slots| :: DeviceOf(slots, first + k) == slots[k].device
  {
    forall r ensures r in SlotRuns(slots) <==> first <= r < first + |slots| {
      if first <= r < first + |slots| {
        assert slots[r - first].run == r;
      }
    }
    forall k | 0 <= k < |slots| ensures DeviceOf(slots, first + k) == slots[k].device {
      DeviceAt(slots, first, k);
    }
  }

  lemma {:induction false} DeviceAt(slots: seq<Slot>, first: RunId, k: nat)
    requires Numbered(slots, first) && k < |slots|
    ensures DeviceOf(slots, first + k) == slots[k].device
  {
    if k > 0 {
      DeviceAt(slots[1..], first + 1, k - 1);
    }
  }
}
