/** The compliance engine (src/kiroku/compliance.py): evaluating policies and caching their results. */
module Compliance {
  import opened Basics
  import opened Targeting

  type DeviceId = int
  type PolicyId = int
  type Row = map<string, string>

  /** What a parser engine makes of a configuration; the engines themselves are not modelled. */
  datatype Parsed =
    | ParseError(error: string)
    | ListOf(items: seq<Option<Row>>) // None stands for a list item that is not a dict
    | OneRow(row: Row)
    | Unstructured

  /** `satisfies` is the check's field, operator and expected value as a condition on one row. */
  datatype Check = Check(id: int, mode: string, severity: string, satisfies: Row -> bool)

  datatype Policy = Policy(
    id: PolicyId, enabled: bool, autoEvaluate: bool,
    parse: string -> Parsed, checks: seq<Check>,
    groups: seq<seq<DeviceId>>, devices: seq<DeviceId>)

  datatype Outcome =
    | Outcome(checkId: int, severity: string, status: string, failingRows: seq<Row>)
    | Unparsed(error: string)

  datatype Verdict = Verdict(evaluatedAt: Time, status: string, detail: seq<Outcome>)

  datatype Entry = Entry(policy: PolicyId, device: DeviceId, verdict: Verdict)

  /** The result table, keyed by its unique (policy, device) constraint. */
  type Table = map<(PolicyId, DeviceId), Verdict>

  // ----- evaluating one policy -----

  /** The dicts among the items of a list. */
  function Dicts(items: seq<Option<Row>>): seq<Row> {
    if items == [] then []
    else Dicts(items[..|items| - 1]) + match items[|items| - 1] case None => [] case Some(row) => [row]
  }

  function RowsOf(parsed: Parsed): seq<Row>
    requires !parsed.ParseError?
  {
    match parsed
    case ListOf(items) =>
      Dicts(items)
    case OneRow(row) => [row]
    case Unstructured => []
  }

  /** The rows that fall short of a check. */
  function Failing(check: Check, rows: seq<Row>): seq<Row> {
    Filter((r: Row) => !check.satisfies(r), rows)
  }

  function EvaluateCheck(check: Check, rows: seq<Row>): Outcome {
    if rows == [] then
      Outcome(check.id, check.severity, if check.mode == "none" then "pass" else "fail", [])
    else
      var satisfying := Filter(check.satisfies, rows);
      var failing := Failing(check, rows);
      var passed := if check.mode == "any" then |satisfying| > 0
                    else if check.mode == "all" then |failing| == 0
                    else |satisfying| == 0;
      Outcome(check.id, check.severity, if passed then "pass" else "fail", if passed then [] else failing)
  }

  function Outcomes(checks: seq<Check>, rows: seq<Row>): seq<Outcome> {
    seq(|checks|, i requires 0 <= i < |checks| => EvaluateCheck(checks[i], rows))
  }

  predicate FailedCritical(outcomes: seq<Outcome>) {
    exists o :: o in outcomes && o.Outcome? && o.status == "fail" && o.severity == "critical"
  }

  predicate FailedAny(outcomes: seq<Outcome>) {
    exists o :: o in outcomes && o.Outcome? && o.status == "fail" && o.severity != "info"
  }

  function EvaluatePolicy(policy: Policy, content: string): (string, seq<Outcome>) {
    match policy.parse(content)
    case ParseError(error) => ("error", [Unparsed(error)])
    case parsed =>
      var rows := RowsOf(parsed);
      var outcomes := Outcomes(policy.checks, rows);
      (if FailedCritical(outcomes) || FailedAny(outcomes) then "fail" else "pass", outcomes)
  }

  /** What a check asks of the parsed rows, by its mode. */
  ghost predicate Holds(check: Check, rows: seq<Row>) {
    if check.mode == "any" then exists r :: r in rows && check.satisfies(r)
    else if check.mode == "all" then rows != [] && forall r :: r in rows ==> check.satisfies(r)
    else (check.mode == "none" || rows != []) && forall r :: r in rows ==> !check.satisfies(r)
  }

  lemma CheckPasses(check: Check, rows: seq<Row>)
    ensures EvaluateCheck(check, rows).status == "pass" <==> Holds(check, rows)
    ensures EvaluateCheck(check, rows).status in {"pass", "fail"}
    ensures forall r :: r in EvaluateCheck(check, rows).failingRows <==> r in rows && !Holds(check, rows) && !check.satisfies(r)
  {
    var satisfying, failing := Filter(check.satisfies, rows), Failing(check, rows);
  }

  /** The rows are the dicts of a list, in order, or the one dict; any other value has none. */
  lemma ParsedRows(items: seq<Option<Row>>, row: Row)
    ensures RowsOf(ListOf([])) == [] && RowsOf(OneRow(row)) == [row] && RowsOf(Unstructured) == []
    ensures RowsOf(ListOf(items + [Some(row)])) == RowsOf(ListOf(items)) + [row]
    ensures RowsOf(ListOf(items + [None])) == RowsOf(ListOf(items))
  {
    assert (items + [Some(row)])[..|items|] == items && (items + [None])[..|items|] == items;
    assert Dicts(items) + [] == Dicts(items);
  }

  /** What the outcome of a check tells: the check itself, whether it holds, and if not the rows that fall short. */
  ghost predicate Tells(check: Check, rows: seq<Row>, o: Outcome) {
    && o.Outcome? && o.checkId == check.id && o.severity == check.severity
    && o.status == (if Holds(check, rows) then "pass" else "fail")
    && o.failingRows == if Holds(check, rows) then [] else Failing(check, rows)
  }

  lemma CheckTells(check: Check, rows: seq<Row>)
    ensures Tells(check, rows, EvaluateCheck(check, rows)) == true
  {
    CheckPasses(check, rows);
  }

  /**
   * What a fresh verdict says of a device: "skip" when no text is stored for it; "error" when its text does not
   * parse; else one outcome for each check in order, and "pass" unless a check that is not informational does not
   * hold. A failing "minor" check escalates too.
   */
  ghost predicate IsVerdict(policy: Policy, content: Option<string>, now: Time, v: Verdict) {
    && v.evaluatedAt == now
    && match content
       case None => v.status == "skip" && v.detail == []
       case Some(text) => IsEvaluation(policy, policy.parse(text), v.status, v.detail)
  }

  ghost predicate IsEvaluation(policy: Policy, parsed: Parsed, status: string, detail: seq<Outcome>) {
    match parsed
    case ParseError(e) => status == "error" && detail == [Unparsed(e)]
    case _ => IsOverall(policy, RowsOf(parsed), status, detail)
  }

  ghost predicate IsOverall(policy: Policy, rows: seq<Row>, status: string, detail: seq<Outcome>) {
    && status == (if exists c :: c in policy.checks && c.severity != "info" && !Holds(c, rows) then "fail" else "pass")
    && |detail| == |policy.checks| && forall i :: 0 <= i < |detail| ==> Tells(policy.checks[i], rows, detail[i])
  }

  lemma PolicyEvaluation(policy: Policy, content: string)
    ensures var (status, detail) := EvaluatePolicy(policy, content);
      IsEvaluation(policy, policy.parse(content), status, detail) == true
  {
    var parsed := policy.parse(content);
    if !parsed.ParseError? {
      OverallEvaluation(policy, RowsOf(parsed), Outcomes(policy.checks, RowsOf(parsed)));
    }
  }

  lemma OverallEvaluation(policy: Policy, rows: seq<Row>, outcomes: seq<Outcome>)
    requires outcomes == Outcomes(policy.checks, rows)
    ensures IsOverall(policy, rows, if FailedCritical(outcomes) || FailedAny(outcomes) then "fail" else "pass", outcomes) == true
  {
    OutcomesTell(policy.checks, rows);
    Escalates(policy, rows, outcomes);
  }

  lemma OutcomesTell(checks: seq<Check>, rows: seq<Row>)
    ensures forall i :: 0 <= i < |checks| ==> Tells(checks[i], rows, Outcomes(checks, rows)[i])
  {
    forall i | 0 <= i < |checks| ensures Tells(checks[i], rows, Outcomes(checks, rows)[i]) == true {
      CheckTells(checks[i], rows);
    }
  }

  /** Some outcome that counts says "fail" exactly when some check that counts does not hold; a critical one counts. */
  lemma Escalates(policy: Policy, rows: seq<Row>, outcomes: seq<Outcome>)
    requires |outcomes| == |policy.checks|
    requires forall i :: 0 <= i < |outcomes| ==> Tells(policy.checks[i], rows, outcomes[i])
    ensures FailedCritical(outcomes) || FailedAny(outcomes) <==> exists c :: c in policy.checks && c.severity != "info" && !Holds(c, rows)
  {
    if c :| c in policy.checks && c.severity != "info" && !Holds(c, rows) {
      var i :| 0 <= i < |policy.checks| && policy.checks[i] == c;
      assert Tells(policy.checks[i], rows, outcomes[i]) && outcomes[i] in outcomes;
    }
    if FailedAny(outcomes) || FailedCritical(outcomes) {
      var o :| o in outcomes && o.Outcome? && o.status == "fail" && o.severity != "info";
      var i :| 0 <= i < |outcomes| && outcomes[i] == o;
      assert Tells(policy.checks[i], rows, outcomes[i]) && policy.checks[i] in policy.checks;
    }
  }

  /** An evaluation passes exactly when the text parses and every check that is not informational holds, fails exactly
      when it parses and some such check does not, and is in error exactly when it does not parse. */
  lemma PolicyStatus(policy: Policy, content: string)
    ensures var (status, detail) := EvaluatePolicy(policy, content);
      && status in {"pass", "fail", "error"}
      && (status == "error" <==> policy.parse(content).ParseError?)
      && (status == "pass" <==>
           && !policy.parse(content).ParseError?
           && forall c :: c in policy.checks && c.severity != "info" ==> Holds(c, RowsOf(policy.parse(content))))
      && (status == "fail" <==>
           && !policy.parse(content).ParseError?
           && exists c :: c in policy.checks && c.severity != "info" && !Holds(c, RowsOf(policy.parse(content))))
      && (status != "error" ==> |detail| == |policy.checks|)
  {
    PolicyEvaluation(policy, content);
  }

  // ----- scope and result cache -----

  /** Scoped ids: group members in group order, then direct devices, each once. */
  function Scope(policy: Policy): seq<DeviceId> {
    FirstOccurrences(Concat(policy.groups) + policy.devices)
  }

  /** After visiting the list `flat`, `seen` is its elements and `result` its first occurrences. */
  ghost predicate Tracks(flat: seq<DeviceId>, seen: set<DeviceId>, result: seq<DeviceId>) {
    (forall d :: d in seen <==> d in flat) && result == FirstOccurrences(flat)
  }

  lemma TracksStep(flat: seq<DeviceId>, more: seq<DeviceId>, j: nat, seen: set<DeviceId>, result: seq<DeviceId>)
    requires j < |more| && Tracks(flat + more[..j], seen, result)
    ensures var d := more[j];
      if d in seen then Tracks(flat + more[..j + 1], seen, result) == true
      else Tracks(flat + more[..j + 1], seen + {d}, result + [d]) == true
  {
    FirstOccurrencesStep(flat + more[..j], more[j]);
    assert flat + more[..j + 1] == flat + more[..j] + [more[j]];
  }

  /** A whole group has been visited. */
  lemma TracksGroup(groups: seq<seq<DeviceId>>, i: nat, seen: set<DeviceId>, result: seq<DeviceId>)
    requires i < |groups| && Tracks(Concat(groups[..i]) + groups[i][..|groups[i]|], seen, result) == true
    ensures Tracks(Concat(groups[..i + 1]), seen, result) == true
  {
    assert groups[i][..|groups[i]|] == groups[i];
    assert groups[..i + 1] == groups[..i] + [groups[i]];
    ConcatStep(groups[..i], groups[i]);
  }

  method ScopedDeviceIds(policy: Policy) returns (result: seq<DeviceId>)
    ensures result == Scope(policy)
  {
    var seen: set<DeviceId> := {};
    result := [];
    assert Concat(policy.groups[..0]) == [];
    for i := 0 to |policy.groups|
      invariant Tracks(Concat(policy.groups[..i]), seen, result) == true
    {
      var g := policy.groups[i];
      ghost var flat := Concat(policy.groups[..i]);
      assert flat + g[..0] == flat;
      for j := 0 to |g|
        invariant Tracks(flat + g[..j], seen, result) == true
      {
        TracksStep(flat, g, j, seen, result);
        if g[j] !in seen {
          seen := seen + {g[j]};
          result := result + [g[j]];
        }
      }
      TracksGroup(policy.groups, i, seen, result);
    }
    assert policy.groups[..|policy.groups|] == policy.groups;
    ghost var flat := Concat(policy.groups);
    assert flat + policy.devices[..0] == flat;
    for j := 0 to |policy.devices|
      invariant Tracks(flat + policy.devices[..j], seen, result) == true
    {
      TracksStep(flat, policy.devices, j, seen, result);
      var d := policy.devices[j];
      if d !in seen {
        seen := seen + {d};
        result := result + [d];
      }
    }
    assert policy.devices[..|policy.devices|] == policy.devices;
  }

  /** Fresh evaluation of one device: its stored text, or "skip" when there is none. */
  function Judge(policy: Policy, content: Option<string>, now: Time): Verdict {
    match content
    case None => Verdict(now, "skip", [])
    case Some(c) => var (status, detail) := EvaluatePolicy(policy, c); Verdict(now, status, detail)
  }

  function Judged(policy: Policy, pairs: seq<(DeviceId, Option<string>)>, now: Time): seq<Entry> {
    seq(|pairs|, i requires 0 <= i < |pairs| => Entry(policy.id, pairs[i].0, Judge(policy, pairs[i].1, now)))
  }

  method RunPolicyForDevices(policy: Policy, pairs: seq<(DeviceId, Option<string>)>, now: Time)
    returns (results: seq<Entry>)
    ensures results == Judged(policy, pairs, now)
    ensures |results| == |pairs| && forall i :: 0 <= i < |pairs| ==>
      && results[i].policy == policy.id && results[i].device == pairs[i].0
      && IsVerdict(policy, pairs[i].1, now, results[i].verdict)
  {
    forall i | 0 <= i < |pairs| ensures IsVerdict(policy, pairs[i].1, now, Judge(policy, pairs[i].1, now)) == true {
      JudgeIs(policy, pairs[i].1, now);
    }
    results := [];
    for i := 0 to |pairs|
      invariant results == Judged(policy, pairs, now)[..i]
    {
      var (device, content) := pairs[i];
      if content.None? {
        results := results + [Entry(policy.id, device, Verdict(now, "skip", []))];
        continue;
      }
      var (status, outcomes) := EvaluatePolicy(policy, content.value);
      results := results + [Entry(policy.id, device, Verdict(now, status, outcomes))];
    }
  }

  /** `INSERT ... ON CONFLICT (policy_id, device_id) DO UPDATE` for each entry in turn. */
  function Upserted(table: Table, entries: seq<Entry>): Table {
    if entries == [] then table
    else
      var e := entries[|entries| - 1];
      Upserted(table, entries[..|entries| - 1])[(e.policy, e.device) := e.verdict]
  }

  method UpsertComplianceResults(table: Table, results: seq<Entry>) returns (updated: Table)
    ensures updated == Upserted(table, results)
  {
    updated := table;
    for i := 0 to |results|
      invariant updated == Upserted(table, results[..i])
    {
      assert results[..i + 1][..i] == results[..i];
      updated := updated[(results[i].policy, results[i].device) := results[i].verdict];
    }
    assert results[..|results|] == results;
  }

  // ----- automatic evaluation when a backup batch closes -----

  predicate Applies(policy: Policy) {
    policy.enabled && policy.autoEvaluate
  }

  /** The scoped devices of the policy that have a run in the batch. */
  function Affected(policy: Policy, ids: set<DeviceId>): seq<DeviceId> {
    Filter((d: DeviceId) => d in ids, Scope(policy))
  }

  function Pairs(devices: seq<DeviceId>, configs: map<DeviceId, string>): seq<(DeviceId, Option<string>)> {
    seq(|devices|, i requires 0 <= i < |devices| => (devices[i], Get(configs, devices[i])))
  }

  function AutoEvaluated(
    policies: seq<Policy>, configs: map<DeviceId, string>, ids: set<DeviceId>, table: Table, now: Time): Table
  {
    if policies == [] then table
    else
      var policy := policies[|policies| - 1];
      var before := AutoEvaluated(policies[..|policies| - 1], configs, ids, table, now);
      if Applies(policy)
      then Upserted(before, Judged(policy, Pairs(Affected(policy, ids), configs), now))
      else before
  }

  /** The loop of `_auto_evaluate_compliance` over a table of results. */
  method AutoEvaluate(
    policies: seq<Policy>, configs: map<DeviceId, string>, ids: set<DeviceId>, table: Table, now: Time)
    returns (updated: Table)
    ensures updated == AutoEvaluated(policies, configs, ids, table, now)
  {
    updated := table;
    if ids == {} {
      NothingAffected(policies, configs, table, now);
      return;
    }
    for i := 0 to |policies|
      invariant updated == AutoEvaluated(policies[..i], configs, ids, table, now)
    {
      var policy := policies[i];
      assert policies[..i + 1][..i] == policies[..i];
      if !Applies(policy) {
        continue;
      }
      var scoped := ScopedDeviceIds(policy);
      var affected := Filter((d: DeviceId) => d in ids, scoped);
      if affected == [] {
        assert Judged(policy, Pairs(affected, configs), now) == [];
        continue;
      }
      var results := RunPolicyForDevices(policy, Pairs(affected, configs), now);
      updated := UpsertComplianceResults(updated, results);
    }
    assert policies[..|policies|] == policies;
  }

  lemma {:induction false} NothingAffected(
    policies: seq<Policy>, configs: map<DeviceId, string>, table: Table, now: Time)
    ensures AutoEvaluated(policies, configs, {}, table, now) == table
  {
    if policies != [] {
      NothingAffected(policies[..|policies| - 1], configs, table, now);
      assert Affected(policies[|policies| - 1], {}) == [];
    }
  }

  /** An upsert of distinct devices of one policy stores each of them and touches nothing else. */
  lemma {:induction false} UpsertStores(
    policy: Policy, devices: seq<DeviceId>, configs: map<DeviceId, string>, table: Table, now: Time)
    ensures var after := Upserted(table, Judged(policy, Pairs(devices, configs), now));
      && (forall k: (PolicyId, DeviceId) :: k.0 != policy.id || k.1 !in devices ==> Get(after, k) == Get(table, k))
      && (forall d :: d in devices ==> Get(after, (policy.id, d)) == Some(Judge(policy, Get(configs, d), now)))
  {
    if devices != [] {
      var front, last := devices[..|devices| - 1], devices[|devices| - 1];
      UpsertStores(policy, front, configs, table, now);
      var entries := Judged(policy, Pairs(devices, configs), now);
      assert entries[..|entries| - 1] == Judged(policy, Pairs(front, configs), now);
      assert devices == front + [last];
    }
  }

  /** Whether the device is among those the policy lists, in a group or directly. */
  ghost predicate Lists(policy: Policy, d: DeviceId) {
    d in policy.devices || exists g :: g in policy.groups && d in g
  }

  lemma {:induction false} ConcatMembers(lists: seq<seq<DeviceId>>, d: DeviceId)
    ensures d in Concat(lists) <==> exists g :: g in lists && d in g
  {
    if lists != [] {
      var front, last := lists[..|lists| - 1], lists[|lists| - 1];
      ConcatMembers(front, d);
      assert lists == front + [last];
    }
  }

  /** The verdict is due: the policy is enabled and evaluates by itself, and lists a device of the batch. */
  ghost predicate IsDue(policy: Policy, d: DeviceId, ids: set<DeviceId>) {
    policy.enabled && policy.autoEvaluate && Lists(policy, d) && d in ids
  }

  /**
   * After the evaluation, exactly the rows that are due hold what a fresh verdict says of the device's stored text,
   * whatever they held before; every other row is as it was.
   */
  lemma AutoEvaluateFresh(
    policies: seq<Policy>, configs: map<DeviceId, string>, ids: set<DeviceId>, table: Table, now: Time)
    requires forall i, j :: 0 <= i < j < |policies| ==> policies[i].id != policies[j].id
    ensures var after := AutoEvaluated(policies, configs, ids, table, now);
      && (forall p, d :: p in policies && IsDue(p, d, ids)
           ==> (p.id, d) in after && IsVerdict(p, Get(configs, d), now, after[(p.id, d)]))
      && (forall k: (PolicyId, DeviceId) :: (forall p :: p in policies && p.id == k.0 ==> !IsDue(p, k.1, ids))
           ==> Get(after, k) == Get(table, k))
  {
    var after := AutoEvaluated(policies, configs, ids, table, now);
    AutoEvaluateJudges(policies, configs, ids, table, now);
    forall p: Policy, d ensures IsDue(p, d, ids) <==> Applies(p) && d in Scope(p) && d in ids {
      ConcatMembers(p.groups, d);
    }
    forall p, d | p in policies && IsDue(p, d, ids)
      ensures (p.id, d) in after && IsVerdict(p, Get(configs, d), now, after[(p.id, d)]) == true
    {
      assert Get(after, (p.id, d)) == Some(Judge(p, Get(configs, d), now));
      JudgeIs(p, Get(configs, d), now);
    }
  }

  lemma JudgeIs(policy: Policy, content: Option<string>, now: Time)
    ensures IsVerdict(policy, content, now, Judge(policy, content, now)) == true
  {
    if content.Some? {
      PolicyEvaluation(policy, content.value);
    }
  }

  lemma {:induction false} AutoEvaluateJudges(
    policies: seq<Policy>, configs: map<DeviceId, string>, ids: set<DeviceId>, table: Table, now: Time)
    requires forall i, j :: 0 <= i < j < |policies| ==> policies[i].id != policies[j].id
    ensures var after := AutoEvaluated(policies, configs, ids, table, now);
      && (forall p, d :: p in policies && Applies(p) && d in Scope(p) && d in ids
           ==> Get(after, (p.id, d)) == Some(Judge(p, Get(configs, d), now)))
      && (forall k: (PolicyId, DeviceId) :: (forall p :: p in policies && p.id == k.0 ==> !(Applies(p) && k.1 in Scope(p) && k.1 in ids))
           ==> Get(after, k) == Get(table, k))
  {
    if policies != [] {
      var front, last := policies[..|policies| - 1], policies[|policies| - 1];
      assert policies == front + [last];
      AutoEvaluateJudges(front, configs, ids, table, now);
      if Applies(last) {
        var affected := Affected(last, ids);
        UpsertStores(last, affected, configs, AutoEvaluated(front, configs, ids, table, now), now);
        assert forall d :: d in affected <==> d in Scope(last) && d in ids;
      }
    }
  }
}
