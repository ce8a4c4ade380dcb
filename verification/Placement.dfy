/**
 Gated placement: every candidate is judged and its verdicts recorded before an untrusted
 router may choose among them (engine.go, lifecycle.go).
 */
module Placement {
  import opened Types
  import opened Policy
  import opened Routing
  import opened Engine
  import opened Protocol

  /**
   Policies, approver, router and store, all arbitrary: what they do may depend on how often they were asked before.
   An approver that fails, panics or times out gives no decision.
   */
  datatype Collaborators = Collaborators(
    execution: (nat, ExecutionRequest) -> Answer, egress: (nat, EgressRequest) -> Answer,
    approver: Option<(nat, ApprovalRequest) -> Option<ApprovalDecision>>, router: (nat, RoutingRequest) -> RouterAnswer,
    commits: nat -> bool, cancelled: nat -> bool, provider: string -> bool)

  /** The workload-wide part of every placement. */
  datatype Job = Job(
    workload: ID, step: ID, attempt: ID, zone: Zone, autonomous: bool, level: Class, requirements: Requirements, budget: Budget,
    observedAt: int, deadline: int, weights: Weights)

  function JobOf(r: Request, observedAt: int, deadline: int, weights: Weights): Job {
    Job(r.workload, r.step, r.attempt, r.zone, r.autonomous, r.level, r.requirements, r.budget, observedAt, deadline, weights)
  }

  // ---- Manifests of model requests ----------------------------------------------------------

  predicate NeedsMaterial(p: ContentPart) {
    p.kind == ArtifactContent || p.kind == ImageContent || p.kind == DocumentContent
  }

  predicate AllInline(ms: seq<Message>) {
    forall i, j :: 0 <= i < |ms| && 0 <= j < |ms[i].content| ==> !NeedsMaterial(ms[i].content[j])
  }

  /** c is the highest level among the workload's and all parts'. */
  predicate Highest(ms: seq<Message>, level: Class, c: Class) {
    && Rank(level) <= Rank(c)
    && (forall i, j :: 0 <= i < |ms| && 0 <= j < |ms[i].content| ==> Rank(ms[i].content[j].level) <= Rank(c))
    && (c == level || exists i, j :: 0 <= i < |ms| && 0 <= j < |ms[i].content| && ms[i].content[j].level == c)
  }

  /** Some part of the conversation, or the workload itself, is secret. */
  predicate Sensitive(ms: seq<Message>, level: Class) {
    level == Secret || exists i, j :: 0 <= i < |ms| && 0 <= j < |ms[i].content| && ms[i].content[j].level == Secret
  }

  /** The encoding of a request, as far as a manifest shows it: its hash and its length. */
  datatype Codec = Codec(hash: seq<Message> -> string, size: seq<Message> -> nat)

  /** One item for the whole conversation, at its highest level. */
  predicate ManifestOf(codec: Codec, ms: seq<Message>, level: Class, m: Manifest) {
    && |m.items| == 1 && Highest(ms, level, m.items[0].level)
    && m.items[0] == ContentItem(codec.hash(ms), "application/json", codec.size(ms), m.items[0].level)
  }

  /** modelManifest: one item for the whole request, at its highest level; content that needs materializing is refused. */
  method ModelManifest(ms: seq<Message>, level: Class, codec: Codec) returns (m: Option<Manifest>)
    ensures m.Some? <==> AllInline(ms)
    ensures m.Some? ==> ManifestOf(codec, ms, level, m.value)
  {
    var class_ := level;
    for i := 0 to |ms|
      invariant forall a, b :: 0 <= a < i && 0 <= b < |ms[a].content| ==> !NeedsMaterial(ms[a].content[b])
      invariant Highest(ms[..i], level, class_)
    {
      for j := 0 to |ms[i].content|
        invariant forall b :: 0 <= b < j ==> !NeedsMaterial(ms[i].content[b])
        invariant Rank(level) <= Rank(class_)
        invariant forall a, b :: 0 <= a < i && 0 <= b < |ms[a].content| ==> Rank(ms[a].content[b].level) <= Rank(class_)
        invariant forall b :: 0 <= b < j ==> Rank(ms[i].content[b].level) <= Rank(class_)
        invariant class_ == level || exists a, b :: 0 <= a <= i && 0 <= b < |ms[a].content| && ms[a].content[b].level == class_
      {
        var part := ms[i].content[j];
        if Rank(part.level) > Rank(class_) { class_ := part.level; }
        if NeedsMaterial(part) { return None; }
      }
      assert forall a :: 0 <= a <= i ==> ms[..i + 1][a] == ms[a];
    }
    assert ms[..|ms|] == ms;
    return Some(Manifest([ContentItem(codec.hash(ms), "application/json", codec.size(ms), class_)]));
  }

  /** The manifest of a sensitive conversation is secret, and only then. */
  lemma SensitiveIsSecret(ms: seq<Message>, level: Class, m: Manifest)
    requires |m.items| == 1 && Highest(ms, level, m.items[0].level) && ValidClass(level)
    ensures ManifestClass(m.items) == Secret <==> Sensitive(ms, level)
  {
    var c := m.items[0].level;
    assert m.items[..0] == [] && ItemClass(m.items[0]) == c;
    if Sensitive(ms, level) { assert Rank(c) >= 3; }
  }

  // ---- What a placed candidate's verdict rests on ----------------------------------------------

  function VerdictRecord(j: Job, turn: int, m: Manifest, v: Verdict): ExecutionRecord {
    Blankly(j.step, turn, PolicyStage, ManifestClass(m.items)).(manifest := Some(m), verdict := Some(v))
  }

  function ApprovalRecordOf(j: Job, turn: int, m: Manifest, scope: Scope, d: ApprovalDecision): ExecutionRecord {
    Blankly(j.step, turn, ApprovalStage, ManifestClass(m.items)).(approval := Some(Approval(ApprovalRequest(scope, m), d)))
  }

  /** A recorded verdict for this manifest and scope with this action. */
  predicate VerdictAt(rs: seq<ExecutionRecord>, i: int, m: Manifest, scope: Scope, action: PolicyAction) {
    0 <= i < |rs| && rs[i].stage == PolicyStage && rs[i].manifest == Some(m) && rs[i].verdict.Some? &&
    rs[i].verdict.value.scope == scope && rs[i].verdict.value.action == action
  }

  /** A recorded grant by a named actor for this manifest and scope. */
  predicate GrantAt(rs: seq<ExecutionRecord>, i: int, m: Manifest, scope: Scope) {
    0 <= i < |rs| && rs[i].stage == ApprovalStage && rs[i].approval.Some? &&
    rs[i].approval.value.request == ApprovalRequest(scope, m) && rs[i].approval.value.decision.approved &&
    !Blank(rs[i].approval.value.decision.actor)
  }

  /** The policy itself answered allow and that is on record, or it asked for approval, approval was granted, and all three are on record in order. */
  ghost predicate Cleared(rs: seq<ExecutionRecord>, m: Manifest, v: Verdict, answered: bool) {
    v.action == Allow ==>
      || (answered && exists i :: VerdictAt(rs, i, m, v.scope, Allow) && rs[i].verdict.value == v)
      || (exists i, j, k :: i < j < k && VerdictAt(rs, i, m, v.scope, RequireApproval) && GrantAt(rs, j, m, v.scope) &&
            VerdictAt(rs, k, m, v.scope, Allow) && rs[k].verdict.value == v)
  }

  lemma ClearedLasts(rs: seq<ExecutionRecord>, rs': seq<ExecutionRecord>, m: Manifest, v: Verdict, answered: bool)
    requires Cleared(rs, m, v, answered) && rs <= rs'
    ensures Cleared(rs', m, v, answered)
  {
    if v.action == Allow {
      if answered && exists i :: VerdictAt(rs, i, m, v.scope, Allow) && rs[i].verdict.value == v {
        var i :| VerdictAt(rs, i, m, v.scope, Allow) && rs[i].verdict.value == v;
        assert VerdictAt(rs', i, m, v.scope, Allow) && rs'[i].verdict.value == v;
      } else {
        var i, j, k :| i < j < k && VerdictAt(rs, i, m, v.scope, RequireApproval) && GrantAt(rs, j, m, v.scope) &&
          VerdictAt(rs, k, m, v.scope, Allow) && rs[k].verdict.value == v;
        assert VerdictAt(rs', i, m, v.scope, RequireApproval) && GrantAt(rs', j, m, v.scope) && VerdictAt(rs', k, m, v.scope, Allow);
      }
    }
  }

  function Question(j: Job, c: Candidate, m: Manifest): ExecutionRequest {
    ExecutionRequest(j.workload, j.step, j.attempt, ModelTurn, Target(NO_SANDBOX, ModelTarget, c.zone, Some(c.model.ref), ""), m, j.autonomous)
  }

  const PURPOSE: string := "model_request"

  function EgressQuestion(j: Job, c: Candidate, m: Manifest): EgressRequest {
    EgressRequest(j.workload, j.step, j.zone, c.zone, m, PURPOSE, "")
  }

  /** The execution policy gave exactly this verdict when asked about this candidate. */
  ghost predicate ExecutionAnswered(w: Collaborators, j: Job, c: Candidate, m: Manifest, v: Verdict) {
    exists t: nat :: w.execution(t, Question(j, c, m)) == Answered(v)
  }

  ghost predicate EgressAnswered(w: Collaborators, j: Job, c: Candidate, m: Manifest, v: Verdict) {
    exists t: nat :: w.egress(t, EgressQuestion(j, c, m)) == Answered(v)
  }

  /** The judged form of a candidate: everything the caller gave, with this run's own verdicts. */
  ghost predicate Judged(env: Env, w: Collaborators, j: Job, m: Manifest, rs: seq<ExecutionRecord>, original: Candidate, c: Candidate) {
    && c == original.(executionVerdict := c.executionVerdict, egressVerdict := c.egressVerdict)
    && c.executionVerdict.scope == ScopeForExecution(Question(j, c, m)) && c.executionVerdict.manifestSHA == Digest(env, m)
    && Cleared(rs, m, c.executionVerdict, ExecutionAnswered(w, j, original, m, c.executionVerdict))
    && (c.executionVerdict.action == Allow ==> ManifestClass(m.items) != Secret)
    && (c.egressVerdict.Some? <==> c.zone != j.zone)
    && (c.egressVerdict.Some? ==>
          && c.egressVerdict.value.scope == ScopeForEgress(EgressQuestion(j, c, m)) && c.egressVerdict.value.manifestSHA == Digest(env, m)
          && Cleared(rs, m, c.egressVerdict.value, EgressAnswered(w, j, original, m, c.egressVerdict.value)))
  }

  lemma JudgedLasts(env: Env, w: Collaborators, j: Job, m: Manifest, rs: seq<ExecutionRecord>, rs': seq<ExecutionRecord>, original: Candidate, c: Candidate)
    requires Judged(env, w, j, m, rs, original, c) && rs <= rs'
    ensures Judged(env, w, j, m, rs', original, c)
  {
    hide Cleared, ExecutionAnswered, EgressAnswered, Digest;
    ClearedLasts(rs, rs', m, c.executionVerdict, ExecutionAnswered(w, j, original, m, c.executionVerdict));
    if c.egressVerdict.Some? {
      ClearedLasts(rs, rs', m, c.egressVerdict.value, EgressAnswered(w, j, original, m, c.egressVerdict.value));
    }
  }

  // ---- What a placement does -------------------------------------------------------------------

  /** The records of a run so far, whether its step was approved, and how often collaborators were asked. */
  datatype Desk = Desk(records: seq<ExecutionRecord>, stepApproved: bool, asked: nat)

  /** One append; what the store does is its own business. */
  function Recording(w: Collaborators, d: Desk, r: ExecutionRecord): (Desk, bool) {
    if w.commits(d.asked) then (d.(records := d.records + [r], asked := d.asked + 1), true) else (d.(asked := d.asked + 1), false)
  }

  /** An approver that gives no decision, or none in anybody's name, has refused. */
  function DecisionOf(answer: Option<ApprovalDecision>): ApprovalDecision {
    if answer.None? || Blank(answer.value.actor) then ApprovalDecision(false, "fabricrunner", "approval_failed") else answer.value
  }

  /** approve: no approver, no approval; secret content is never put to one; the decision is recorded before it counts. */
  function Approving(w: Collaborators, j: Job, d: Desk, turn: int, m: Manifest, scope: Scope): (Desk, bool) {
    if w.approver.None? || !ValidManifest(m) || ManifestClass(m.items) == Secret then (d, false)
    else
      var decision := DecisionOf(w.approver.value(d.asked, ApprovalRequest(scope, m)));
      var (d1, recorded) := Recording(w, d.(asked := d.asked + 1), ApprovalRecordOf(j, turn, m, scope, decision));
      if !recorded || !decision.approved then (d1, false) else (d1.(asked := d1.asked + 1), !w.cancelled(d1.asked))
  }

  /** A verdict is recorded and, if it asks for approval, resolved and recorded again. */
  function Settling(w: Collaborators, j: Job, d: Desk, turn: int, m: Manifest, v: Verdict): (Desk, Option<Verdict>) {
    if !ValidManifest(m) then (d, None)
    else
      var (d1, ok) := Recording(w, d, VerdictRecord(j, turn, m, v));
      if !ok then (d1, None)
      else if v.action != RequireApproval then (d1, Some(v))
      else
        var (d2, granted) := Approving(w, j, d1, turn, m, v.scope);
        if !granted then (d2, None)
        else
          var (d3, recorded) := Recording(w, d2, VerdictRecord(j, turn, m, Approved(v)));
          if recorded then (d3, Some(Approved(v))) else (d3, None)
  }

  /** One candidate is judged, on execution and, across zones, on egress. */
  function Judging(env: Env, w: Collaborators, j: Job, d: Desk, turn: int, m: Manifest, c: Candidate): (Desk, Option<Candidate>) {
    var q := Question(j, c, m);
    var v := EvaluateExecution(env, w.execution(d.asked, q), q);
    var (d1, execution) := Settling(w, j, d.(asked := d.asked + 1), turn, m, v);
    if execution.None? then (d1, None)
    else if c.zone == j.zone then (d1, Some(c.(executionVerdict := execution.value, egressVerdict := None)))
    else
      var eq := EgressQuestion(j, c, m);
      var ev := EvaluateEgress(env, w.egress(d1.asked, eq), eq);
      var (d2, egress) := Settling(w, j, d1.(asked := d1.asked + 1), turn, m, ev);
      if egress.None? then (d2, None)
      else (d2, Some(c.(executionVerdict := execution.value, egressVerdict := Some(egress.value))))
  }

  /** All candidates are judged, in the caller's order, or none is routed. */
  function JudgingAll(env: Env, w: Collaborators, j: Job, d: Desk, turn: int, m: Manifest, cs: seq<Candidate>): (Desk, Option<seq<Candidate>>) {
    if cs == [] then (d, Some([]))
    else
      var (d1, judged) := JudgingAll(env, w, j, d, turn, m, cs[..|cs| - 1]);
      if judged.None? then (d1, None)
      else
        var (d2, c) := Judging(env, w, j, d1, turn, m, cs[|cs| - 1]);
        if c.None? then (d2, None) else (d2, Some(judged.value + [c.value]))
  }

  function RoutingOf(env: Env, j: Job, m: Manifest, usage: Usage, cs: seq<Candidate>): RoutingRequest {
    var b := j.budget;
    RoutingRequest(j.workload, j.step, j.attempt, Digest(env, m), j.zone, j.autonomous, PURPOSE, "", j.requirements,
                   b.(maxInput := b.maxInput - usage.input, maxOutput := b.maxOutput - usage.output, maxCost := b.maxCost - usage.cost),
                   j.observedAt, j.deadline, j.weights, cs)
  }

  function RoutingRecordOf(j: Job, turn: int, rq: RoutingRequest, decision: RoutingDecision): ExecutionRecord {
    Blankly(j.step, turn, RoutingStage, j.level).(routing := Some(RoutingRecord(rq, decision)))
  }

  function First(cs: seq<Candidate>, id: ID): (c: Option<Candidate>)
    ensures c.Some? <==> exists i :: 0 <= i < |cs| && cs[i].id == id
    ensures c.Some? ==> c.value in cs && c.value.id == id
  {
    if cs == [] then None else if cs[0].id == id then Some(cs[0]) else First(cs[1..], id)
  }

  /** The router chooses, its decision is recorded, and the first use of the step is put to the approver. */
  function Choosing(w: Collaborators, j: Job, d: Desk, turn: int, m: Manifest, rq: RoutingRequest): (Desk, Option<Candidate>) {
    var e := Evaluation(w.router(d.asked, rq), rq);
    if e.Rejected? then (d.(asked := d.asked + 1), None)
    else
      var decision := if e.Placed? then e.decision else e.refusal;
      var (d1, ok) := Recording(w, d.(asked := d.asked + 1), RoutingRecordOf(j, turn, rq, decision));
      if !ok || e.NonePlaced? then (d1, None)
      else
        var c := First(rq.candidates, decision.selected);
        if c.None? || !w.provider(c.value.model.ref.provider) then (d1, None)
        else if w.approver.None? || d1.stepApproved then (d1, c)
        else
          var (d2, granted) := Approving(w, j, d1, turn, m, c.value.executionVerdict.scope);
          if granted then (d2.(stepApproved := true), c) else (d2, None)
  }

  /** selectPlacement up to the reservation. */
  function Placing(env: Env, w: Collaborators, j: Job, d: Desk, turn: int, m: Manifest, usage: Usage, cs: seq<Candidate>): (Desk, Option<Candidate>) {
    var (d1, judged) := JudgingAll(env, w, j, d, turn, m, cs);
    if judged.None? then (d1, None) else Choosing(w, j, d1, turn, m, RoutingOf(env, j, m, usage, judged.value))
  }

  // ---- Nothing is placed that was not cleared -----------------------------------------------------

  /** b is a followed by policy and approval records of this step. */
  predicate Remarked(step: ID, a: seq<ExecutionRecord>, b: seq<ExecutionRecord>) {
    a <= b && forall i :: |a| <= i < |b| ==> Remark(step, b[i])
  }

  lemma ApprovingGrants(w: Collaborators, j: Job, d: Desk, turn: int, m: Manifest, scope: Scope)
    ensures var (d', ok) := Approving(w, j, d, turn, m, scope);
      && Remarked(j.step, d.records, d'.records) && d'.stepApproved == d.stepApproved
      && (ok ==> ValidManifest(m) && ManifestClass(m.items) != Secret && |d'.records| == |d.records| + 1 && GrantAt(d'.records, |d.records|, m, scope))
  {
    hide ManifestClass, ValidManifest;
  }

  /** What comes out of a settled verdict is cleared by the records. */
  lemma SettlingClears(w: Collaborators, j: Job, d: Desk, turn: int, m: Manifest, v: Verdict, gave: Verdict -> bool)
    requires v.action == Allow ==> gave(v)
    ensures var (d', out) := Settling(w, j, d, turn, m, v);
      && Remarked(j.step, d.records, d'.records) && d'.stepApproved == d.stepApproved
      && (out.Some? ==>
            && out.value.scope == v.scope && out.value.manifestSHA == v.manifestSHA && Cleared(d'.records, m, out.value, gave(out.value))
            && (out.value == v || out.value == Approved(v))
            && (v.action == RequireApproval ==> ManifestClass(m.items) != Secret)
            && (out.value.action == Allow ==> v.action == Allow || v.action == RequireApproval))
  {
    hide ManifestClass, ValidManifest, Blank, Approving;
    var (d', out) := Settling(w, j, d, turn, m, v);
    var n := |d.records|;
    if ValidManifest(m) {
      var (d1, ok) := Recording(w, d, VerdictRecord(j, turn, m, v));
      if ok && v.action == RequireApproval {
        ApprovingGrants(w, j, d1, turn, m, v.scope);
        if out.Some? {
          assert VerdictAt(d'.records, n, m, v.scope, RequireApproval) && GrantAt(d'.records, n + 1, m, v.scope) &&
                 VerdictAt(d'.records, n + 2, m, v.scope, Allow);
        }
      } else if out.Some? && v.action == Allow {
        assert VerdictAt(d'.records, n, m, v.scope, Allow) && d'.records[n].verdict.value == v;
      }
    }
  }

  /** A settled verdict for a candidate is bound to it and cleared. */
  ghost predicate Sound(env: Env, m: Manifest, rs: seq<ExecutionRecord>, scope: Scope, v: Verdict, answered: bool) {
    v.scope == scope && v.manifestSHA == Digest(env, m) && Cleared(rs, m, v, answered)
  }

  lemma ExecutionSound(env: Env, w: Collaborators, j: Job, d: Desk, turn: int, m: Manifest, c: Candidate)
    ensures var q := Question(j, c, m);
      var (d', out) := Settling(w, j, d.(asked := d.asked + 1), turn, m, EvaluateExecution(env, w.execution(d.asked, q), q));
      && Remarked(j.step, d.records, d'.records) && d'.stepApproved == d.stepApproved
      && (out.Some? ==>
            && Sound(env, m, d'.records, ScopeForExecution(q), out.value, ExecutionAnswered(w, j, c, m, out.value))
            && (out.value.action == Allow ==> ManifestClass(m.items) != Secret))
  {
    hide Cleared, EvaluateExecution, Digest, ManifestClass, Settling, Remarked;
    var q := Question(j, c, m);
    var v := EvaluateExecution(env, w.execution(d.asked, q), q);
    var byExecution := x => ExecutionAnswered(w, j, c, m, x);
    assert v.action == Allow ==> w.execution(d.asked, q) == Answered(v);
    SettlingClears(w, j, d.(asked := d.asked + 1), turn, m, v, byExecution);
  }

  lemma EgressSound(env: Env, w: Collaborators, j: Job, d: Desk, turn: int, m: Manifest, c: Candidate)
    ensures var q := EgressQuestion(j, c, m);
      var (d', out) := Settling(w, j, d.(asked := d.asked + 1), turn, m, EvaluateEgress(env, w.egress(d.asked, q), q));
      && Remarked(j.step, d.records, d'.records) && d'.stepApproved == d.stepApproved
      && (out.Some? ==> Sound(env, m, d'.records, ScopeForEgress(q), out.value, EgressAnswered(w, j, c, m, out.value)))
  {
    hide Cleared, EvaluateEgress, Digest, ManifestClass, Settling, Remarked;
    var q := EgressQuestion(j, c, m);
    var v := EvaluateEgress(env, w.egress(d.asked, q), q);
    var byEgress := x => EgressAnswered(w, j, c, m, x);
    assert v.action == Allow ==> w.egress(d.asked, q) == Answered(v);
    SettlingClears(w, j, d.(asked := d.asked + 1), turn, m, v, byEgress);
  }

  /** A candidate that comes out of judgement carries this run's own cleared verdicts. */
  lemma JudgingJudges(env: Env, w: Collaborators, j: Job, d: Desk, turn: int, m: Manifest, original: Candidate)
    ensures var (d', out) := Judging(env, w, j, d, turn, m, original);
      && Remarked(j.step, d.records, d'.records) && d'.stepApproved == d.stepApproved
      && (out.Some? ==> Judged(env, w, j, m, d'.records, original, out.value))
  {
    hide Cleared, EvaluateExecution, EvaluateEgress, Digest, ManifestClass, Settling, ExecutionAnswered, EgressAnswered, Remark;
    var q := Question(j, original, m);
    ExecutionSound(env, w, j, d, turn, m, original);
    var (d1, execution) := Settling(w, j, d.(asked := d.asked + 1), turn, m, EvaluateExecution(env, w.execution(d.asked, q), q));
    if execution.Some? && original.zone != j.zone {
      var eq := EgressQuestion(j, original, m);
      EgressSound(env, w, j, d1, turn, m, original);
      var (d2, egress) := Settling(w, j, d1.(asked := d1.asked + 1), turn, m, EvaluateEgress(env, w.egress(d1.asked, eq), eq));
      ClearedLasts(d1.records, d2.records, m, execution.value, ExecutionAnswered(w, j, original, m, execution.value));
    }
  }

  lemma {:induction false} JudgingAllJudges(env: Env, w: Collaborators, j: Job, d: Desk, turn: int, m: Manifest, cs: seq<Candidate>)
    ensures var (d', out) := JudgingAll(env, w, j, d, turn, m, cs);
      && Remarked(j.step, d.records, d'.records) && d'.stepApproved == d.stepApproved
      && (out.Some? ==>
            |out.value| == |cs| && forall i :: 0 <= i < |cs| ==> Judged(env, w, j, m, d'.records, cs[i], out.value[i]))
  {
    hide Judged, Judging;
    if cs != [] {
      var init, last := cs[..|cs| - 1], cs[|cs| - 1];
      JudgingAllJudges(env, w, j, d, turn, m, init);
      var (d1, judged) := JudgingAll(env, w, j, d, turn, m, init);
      if judged.Some? {
        JudgingJudges(env, w, j, d1, turn, m, last);
        var (d2, c) := Judging(env, w, j, d1, turn, m, last);
        forall i | 0 <= i < |init| ensures Judged(env, w, j, m, d2.records, cs[i], judged.value[i]) {
          JudgedLasts(env, w, j, m, d1.records, d2.records, cs[i], judged.value[i]);
        }
      }
    }
  }

  /** The records of a choice, whatever comes of it: a valid decision's, then at most an approval. */
  lemma ChoosingRecords(w: Collaborators, j: Job, d: Desk, turn: int, m: Manifest, rq: RoutingRequest)
    ensures var (d', placed) := Choosing(w, j, d, turn, m, rq);
      var n := |d.records|;
      && d.records <= d'.records
      && (d'.records != d.records ==>
            && n < |d'.records| && d'.records[n].routing.Some?
            && var decision := d'.records[n].routing.value.decision;
               && d'.records[n] == RoutingRecordOf(j, turn, rq, decision) && ValidDecision(decision, rq)
               && Remarked(j.step, d'.records[..n + 1], d'.records) && (decision.selected == ZERO_ID ==> |d'.records| == n + 1))
      && (placed.Some? ==>
            && d'.records != d.records && RoutedAt(d'.records, n, turn, placed.value)
            && d'.records[n].routing.value.decision.selected != ZERO_ID
            && placed == First(rq.candidates, d'.records[n].routing.value.decision.selected)
            && (w.approver.Some? ==> d'.stepApproved))
  {
    hide ValidDecision, Approving;
    var (d', placed) := Choosing(w, j, d, turn, m, rq);
    var e := Evaluation(w.router(d.asked, rq), rq);
    if !e.Rejected? {
      var decision := if e.Placed? then e.decision else e.refusal;
      var (d1, ok) := Recording(w, d.(asked := d.asked + 1), RoutingRecordOf(j, turn, rq, decision));
      var c := First(rq.candidates, decision.selected);
      if c.Some? { ApprovingGrants(w, j, d1, turn, m, c.value.executionVerdict.scope); }
      if ok {
        assert d1.records == d.records + [RoutingRecordOf(j, turn, rq, decision)];
        assert d1.records <= d'.records;
        assert d'.records[..|d.records| + 1] == d1.records;
        assert d'.records[|d.records|] == d1.records[|d.records|];
      }
    }
  }

  /**
   Whatever the collaborators do, a candidate is placed only if its own execution verdict for this manifest and scope was
   allowed by the policy or by a recorded grant, likewise its egress verdict across zones, the router's decision was valid
   and is on record, and the content is not secret.
   */
  lemma PlacingCleared(env: Env, w: Collaborators, j: Job, d: Desk, turn: int, m: Manifest, usage: Usage, cs: seq<Candidate>) returns (k: nat)
    ensures var (d', placed) := Placing(env, w, j, d, turn, m, usage, cs);
      && d.records <= d'.records
      && (placed.Some? ==>
            && k < |cs| && Judged(env, w, j, m, d'.records, cs[k], placed.value)
            && placed.value.executionVerdict.action == Allow && ManifestClass(m.items) != Secret
            && (placed.value.zone != j.zone ==> placed.value.egressVerdict.Some? && placed.value.egressVerdict.value.action == Allow)
            && (exists i :: RoutedAt(d'.records, i, turn, placed.value))
            && (w.approver.Some? ==> d'.stepApproved))
  {
    hide Judged, ValidDecision, CandidateExclusion, ManifestClass, JudgingAll, Choosing, Authorized, Eligible;
    k := 0;
    JudgingAllJudges(env, w, j, d, turn, m, cs);
    var (d1, judged) := JudgingAll(env, w, j, d, turn, m, cs);
    if judged.Some? {
      var rq := RoutingOf(env, j, m, usage, judged.value);
      ChoosingRecords(w, j, d1, turn, m, rq);
      var (d', placed) := Choosing(w, j, d1, turn, m, rq);
      if placed.Some? {
        var n := SelectedUnique(d'.records[|d1.records|].routing.value.decision, rq);
        assert placed.value in judged.value;
        assert placed.value == judged.value[n];
        JudgedLasts(env, w, j, m, d1.records, d'.records, cs[n], judged.value[n]);
        JudgedAllowed(env, w, j, m, d'.records, cs[n], placed.value, rq);
        k := n;
      }
    }
  }

  lemma JudgedAllowed(env: Env, w: Collaborators, j: Job, m: Manifest, rs: seq<ExecutionRecord>, original: Candidate, c: Candidate, r: RoutingRequest)
    requires Judged(env, w, j, m, rs, original, c) && Authorized(r, c) && r.sourceZone == j.zone
    ensures c.executionVerdict.action == Allow && ManifestClass(m.items) != Secret
    ensures c.zone != j.zone ==> c.egressVerdict.Some? && c.egressVerdict.value.action == Allow
  {
    hide Cleared, ExecutionAnswered, EgressAnswered, Digest, ValidVerdict;
  }

  // ---- Willing collaborators do place ---------------------------------------------------------------

  /** The judged form of a candidate whose verdicts all came out as allow. */
  predicate Granted(env: Env, j: Job, m: Manifest, original: Candidate, c: Candidate) {
    && c == original.(executionVerdict := c.executionVerdict, egressVerdict := c.egressVerdict)
    && ValidVerdict(c.executionVerdict) && c.executionVerdict.action == Allow && c.executionVerdict.manifestSHA == Digest(env, m)
    && c.executionVerdict.scope == ScopeForExecution(Question(j, c, m))
    && (c.egressVerdict.Some? <==> c.zone != j.zone)
    && (c.egressVerdict.Some? ==>
          && ValidVerdict(c.egressVerdict.value) && c.egressVerdict.value.action == Allow
          && c.egressVerdict.value.manifestSHA == Digest(env, m)
          && c.egressVerdict.value.scope == ScopeForEgress(EgressQuestion(j, c, m)))
  }

  /** Allowed outright, or left to an approver that is there. */
  predicate Favours(w: Collaborators, v: Verdict) {
    ValidVerdict(v) && (v.action == Allow || (v.action == RequireApproval && w.approver.Some?))
  }

  ghost predicate FavoursCandidate(env: Env, w: Collaborators, j: Job, m: Manifest, c: Candidate) {
    && (forall t: nat :: Favours(w, EvaluateExecution(env, w.execution(t, Question(j, c, m)), Question(j, c, m))))
    && (c.zone != j.zone ==> forall t: nat :: Favours(w, EvaluateEgress(env, w.egress(t, EgressQuestion(j, c, m)), EgressQuestion(j, c, m))))
  }

  /** Every record is stored, nothing is cancelled, and an approver, if there is one, always grants in somebody's name. */
  ghost predicate Cooperates(w: Collaborators) {
    && (forall t: nat :: w.commits(t)) && (forall t: nat :: !w.cancelled(t))
    && (w.approver.Some? ==> forall t: nat, q :: DecisionOf(w.approver.value(t, q)).approved)
  }

  /** The router answers a valid decision that selects a candidate of a known provider. */
  ghost predicate Routes(w: Collaborators, rq: RoutingRequest) {
    forall t: nat ::
      && w.router(t, rq).Routed? && ValidDecision(w.router(t, rq).decision, rq) && w.router(t, rq).decision.selected != ZERO_ID
      && forall c :: c in rq.candidates && c.id == w.router(t, rq).decision.selected ==> w.provider(c.model.ref.provider)
  }

  /** The policies favour every candidate, and the router routes them once they are allowed. */
  ghost predicate Willing(env: Env, w: Collaborators, j: Job, m: Manifest, usage: Usage, cs: seq<Candidate>) {
    && Cooperates(w) && ValidManifest(m) && ManifestClass(m.items) != Secret
    && (forall i :: 0 <= i < |cs| ==> FavoursCandidate(env, w, j, m, cs[i]))
    && forall judged: seq<Candidate> ::
         |judged| == |cs| && (forall i :: 0 <= i < |cs| ==> Granted(env, j, m, cs[i], judged[i])) ==>
           Routes(w, RoutingOf(env, j, m, usage, judged))
  }

  lemma ApprovedValid(v: Verdict)
    requires ValidVerdict(v) && v.action == RequireApproval
    ensures ValidVerdict(Approved(v))
  {
    hide ValidScope, ValidSHA;
    var a := Approved(v);
    assert !IsSpace(a.policy[0]) && !IsSpace(a.version[0]) && !IsSpace(a.rule[0]) && !IsSpace(a.reason[0]);
  }

  lemma SettlingSucceeds(w: Collaborators, j: Job, d: Desk, turn: int, m: Manifest, v: Verdict)
    requires Cooperates(w) && ValidManifest(m) && ManifestClass(m.items) != Secret && Favours(w, v)
    ensures var (_, out) := Settling(w, j, d, turn, m, v);
      out.Some? && ValidVerdict(out.value) && out.value.action == Allow && out.value.scope == v.scope && out.value.manifestSHA == v.manifestSHA
  {
    hide ManifestClass, ValidManifest, DecisionOf, ValidVerdict;
    if v.action == RequireApproval { ApprovedValid(v); }
  }

  lemma JudgingSucceeds(env: Env, w: Collaborators, j: Job, d: Desk, turn: int, m: Manifest, c: Candidate)
    requires Cooperates(w) && ValidManifest(m) && ManifestClass(m.items) != Secret && FavoursCandidate(env, w, j, m, c)
    ensures var (_, out) := Judging(env, w, j, d, turn, m, c); out.Some? && Granted(env, j, m, c, out.value)
  {
    hide Cooperates, ManifestClass, ValidManifest, EvaluateExecution, EvaluateEgress, Digest, Settling, ValidVerdict;
    var q := Question(j, c, m);
    var v := EvaluateExecution(env, w.execution(d.asked, q), q);
    SettlingSucceeds(w, j, d.(asked := d.asked + 1), turn, m, v);
    if c.zone != j.zone {
      var (d1, _) := Settling(w, j, d.(asked := d.asked + 1), turn, m, v);
      var eq := EgressQuestion(j, c, m);
      SettlingSucceeds(w, j, d1.(asked := d1.asked + 1), turn, m, EvaluateEgress(env, w.egress(d1.asked, eq), eq));
    }
  }

  lemma {:induction false} JudgingAllSucceeds(env: Env, w: Collaborators, j: Job, d: Desk, turn: int, m: Manifest, cs: seq<Candidate>)
    requires Cooperates(w) && ValidManifest(m) && ManifestClass(m.items) != Secret
    requires forall i :: 0 <= i < |cs| ==> FavoursCandidate(env, w, j, m, cs[i])
    ensures var (_, out) := JudgingAll(env, w, j, d, turn, m, cs);
      out.Some? && |out.value| == |cs| && forall i :: 0 <= i < |cs| ==> Granted(env, j, m, cs[i], out.value[i])
  {
    hide Cooperates, ManifestClass, ValidManifest, FavoursCandidate, Granted, Judging;
    if cs != [] {
      var init := cs[..|cs| - 1];
      JudgingAllSucceeds(env, w, j, d, turn, m, init);
      var (d1, _) := JudgingAll(env, w, j, d, turn, m, init);
      JudgingSucceeds(env, w, j, d1, turn, m, cs[|cs| - 1]);
    }
  }

  lemma ChoosingSucceeds(w: Collaborators, j: Job, d: Desk, turn: int, m: Manifest, rq: RoutingRequest)
    requires Cooperates(w) && ValidManifest(m) && ManifestClass(m.items) != Secret && Routes(w, rq)
    ensures var (_, placed) := Choosing(w, j, d, turn, m, rq); placed.Some?
  {
    hide ManifestClass, ValidManifest, DecisionOf, ValidDecision, Eligible, Authorized;
    var decision := w.router(d.asked, rq).decision;
    var k := SelectedUnique(decision, rq);
    var c := First(rq.candidates, decision.selected);
  }

  /** When every record is stored and policies, approver and router are willing, a candidate is placed. */
  lemma WillingPlaces(env: Env, w: Collaborators, j: Job, d: Desk, turn: int, m: Manifest, usage: Usage, cs: seq<Candidate>)
    requires Willing(env, w, j, m, usage, cs)
    ensures var (_, placed) := Placing(env, w, j, d, turn, m, usage, cs); placed.Some?
  {
    hide Cooperates, ManifestClass, ValidManifest, FavoursCandidate, Granted, JudgingAll, Choosing, Routes;
    JudgingAllSucceeds(env, w, j, d, turn, m, cs);
    var (d1, judged) := JudgingAll(env, w, j, d, turn, m, cs);
    ChoosingSucceeds(w, j, d1, turn, m, RoutingOf(env, j, m, usage, judged.value));
  }

  // ---- The run's side --------------------------------------------------------------------------

  class Placer {
    const env: Env
    const world: Collaborators
    const job: Job
    var records: seq<ExecutionRecord>
    var stepApproved: bool
    var asked: nat

    function Now(): Desk
      reads this
    {
      Desk(records, stepApproved, asked)
    }

    constructor (env: Env, world: Collaborators, job: Job)
      ensures this.env == env && this.world == world && this.job == job && Now() == Desk([], false, 0)
    {
      this.env, this.world, this.job := env, world, job;
      records, stepApproved, asked := [], false, 0;
    }

    method Record(r: ExecutionRecord) returns (ok: bool)
      modifies this`records, this`asked
      ensures (Now(), ok) == Recording(world, old(Now()), r)
    {
      ok := world.commits(asked);
      asked := asked + 1;
      if ok { records := records + [r]; }
    }

    method Approve(turn: int, m: Manifest, scope: Scope) returns (ok: bool)
      modifies this`records, this`asked
      ensures (Now(), ok) == Approving(world, job, old(Now()), turn, m, scope)
      ensures old(records) <= records
      ensures ok ==> ValidManifest(m) && ManifestClass(m.items) != Secret && |records| == |old(records)| + 1 && GrantAt(records, |old(records)|, m, scope)
    {
      hide ManifestClass, ValidManifest;
      ApprovingGrants(world, job, Now(), turn, m, scope);
      if world.approver.None? || !ValidManifest(m) || ManifestClass(m.items) == Secret { return false; }
      var answer := world.approver.value(asked, ApprovalRequest(scope, m));
      asked := asked + 1;
      var decision := if answer.None? || Blank(answer.value.actor) then ApprovalDecision(false, "fabricrunner", "approval_failed") else answer.value;
      var recorded := Record(ApprovalRecordOf(job, turn, m, scope, decision));
      if !recorded || !decision.approved { return false; }
      ok := !world.cancelled(asked);
      asked := asked + 1;
    }

    /** recordPolicy, then resolveApproval: what comes out is cleared by the records. */
    method Settle(turn: int, m: Manifest, v: Verdict, ghost gave: Verdict -> bool) returns (out: Option<Verdict>)
      requires v.action == Allow ==> gave(v)
      modifies this`records, this`asked
      ensures (Now(), out) == Settling(world, job, old(Now()), turn, m, v)
      ensures old(records) <= records
      ensures out.Some? ==>
        && out.value.scope == v.scope && out.value.manifestSHA == v.manifestSHA && Cleared(records, m, out.value, gave(out.value))
        && (out.value == v || out.value == Approved(v))
        && (v.action == RequireApproval ==> ManifestClass(m.items) != Secret) && (out.value.action == Allow ==> v.action == Allow || v.action == RequireApproval)
    {
      hide ManifestClass, ValidManifest, Cleared, Approving;
      SettlingClears(world, job, Now(), turn, m, v, gave);
      if !ValidManifest(m) { return None; }
      var ok := Record(VerdictRecord(job, turn, m, v));
      if !ok { return None; }
      if v.action != RequireApproval { return Some(v); }
      ok := Approve(turn, m, v.scope);
      if !ok { return None; }
      var granted := Approved(v);
      ok := Record(VerdictRecord(job, turn, m, granted));
      return if ok then Some(granted) else None;
    }

    method Judge(turn: int, m: Manifest, original: Candidate) returns (out: Option<Candidate>)
      modifies this`records, this`asked
      ensures (Now(), out) == Judging(env, world, job, old(Now()), turn, m, original)
      ensures old(records) <= records
      ensures out.Some? ==> Judged(env, world, job, m, records, original, out.value)
    {
      hide Cleared, EvaluateExecution, EvaluateEgress, Digest, ManifestClass, Settling, Judged;
      JudgingJudges(env, world, job, Now(), turn, m, original);
      var q := Question(job, original, m);
      var v := EvaluateExecution(env, world.execution(asked, q), q);
      asked := asked + 1;
      var execution := Settle(turn, m, v, x => true);
      if execution.None? { return None; }
      if original.zone == job.zone { return Some(original.(executionVerdict := execution.value, egressVerdict := None)); }
      var eq := EgressQuestion(job, original, m);
      var ev := EvaluateEgress(env, world.egress(asked, eq), eq);
      asked := asked + 1;
      var egress := Settle(turn, m, ev, x => true);
      if egress.None? { return None; }
      return Some(original.(executionVerdict := execution.value, egressVerdict := Some(egress.value)));
    }

    method JudgeAll(turn: int, m: Manifest, candidates: seq<Candidate>) returns (out: Option<seq<Candidate>>)
      modifies this`records, this`asked
      ensures (Now(), out) == JudgingAll(env, world, job, old(Now()), turn, m, candidates)
      ensures old(records) <= records
      ensures out.Some? ==>
        && |out.value| == |candidates|
        && forall i :: 0 <= i < |candidates| ==> Judged(env, world, job, m, records, candidates[i], out.value[i])
    {
      hide Judged, Judging;
      ghost var start := Now();
      JudgingAllJudges(env, world, job, start, turn, m, candidates);
      var judged: seq<Candidate> := [];
      for k := 0 to |candidates|
        invariant stepApproved == old(stepApproved)
        invariant (Now(), Some(judged)) == JudgingAll(env, world, job, start, turn, m, candidates[..k])
      {
        assert candidates[..k + 1][..k] == candidates[..k];
        var c := Judge(turn, m, candidates[k]);
        if c.None? {
          JudgingStops(env, world, job, start, turn, m, candidates, k + 1);
          return None;
        }
        judged := judged + [c.value];
      }
      assert candidates[..|candidates|] == candidates;
      return Some(judged);
    }

    /**
     selectPlacement up to the reservation: nothing is placed that was not cleared, whatever the collaborators do, and
     willing collaborators do place a candidate.
     */
    method SelectPlacement(turn: int, m: Manifest, usage: Usage, candidates: seq<Candidate>) returns (placed: Option<Candidate>, ghost k: nat)
      modifies this
      ensures (Now(), placed) == Placing(env, world, job, old(Now()), turn, m, usage, candidates)
      ensures old(records) <= records
      ensures placed.Some? ==>
        && k < |candidates| && Judged(env, world, job, m, records, candidates[k], placed.value)
        && placed.value.executionVerdict.action == Allow && ManifestClass(m.items) != Secret
        && (placed.value.zone != job.zone ==> placed.value.egressVerdict.Some? && placed.value.egressVerdict.value.action == Allow)
      ensures placed.Some? ==> exists i :: RoutedAt(records, i, turn, placed.value)
      ensures placed.Some? && world.approver.Some? ==> stepApproved
      ensures Willing(env, world, job, m, usage, candidates) ==> placed.Some?
    {
      hide Judged, ManifestClass, JudgingAll, Choosing, Willing, RoutedAt;
      k := PlacingCleared(env, world, job, Now(), turn, m, usage, candidates);
      if Willing(env, world, job, m, usage, candidates) {
        WillingPlaces(env, world, job, Now(), turn, m, usage, candidates);
      }
      var judged := JudgeAll(turn, m, candidates);
      if judged.None? { return None, k; }
      placed := Choose(turn, m, RoutingOf(env, job, m, usage, judged.value));
    }

    /** The router's decision, its record, and the approval of the step. */
    method Choose(turn: int, m: Manifest, routing: RoutingRequest) returns (placed: Option<Candidate>)
      modifies this
      ensures (Now(), placed) == Choosing(world, job, old(Now()), turn, m, routing)
    {
      hide ValidDecision, ManifestClass, Approving, RoutingRecordOf, GrantAt, ValidManifest;
      var e := EvaluateRouter(world.router(asked, routing), routing);
      asked := asked + 1;
      if e.Rejected? { return None; }
      var decision := if e.Placed? then e.decision else e.refusal;
      var ok := Record(RoutingRecordOf(job, turn, routing, decision));
      if !ok || e.NonePlaced? { return None; }
      var c := Find(routing.candidates, decision.selected);
      if c.None? || !world.provider(c.value.model.ref.provider) { return None; }
      if world.approver.Some? && !stepApproved {
        ok := Approve(turn, m, c.value.executionVerdict.scope);
        if !ok { return None; }
        stepApproved := true;
      }
      return c;
    }
  }

  /** A judgement that fails at one candidate has failed for the whole list. */
  lemma {:induction false} JudgingStops(env: Env, w: Collaborators, j: Job, d: Desk, turn: int, m: Manifest, cs: seq<Candidate>, k: nat)
    requires k <= |cs|
    requires var (_, out) := JudgingAll(env, w, j, d, turn, m, cs[..k]); out.None?
    ensures JudgingAll(env, w, j, d, turn, m, cs) == JudgingAll(env, w, j, d, turn, m, cs[..k])
  {
    hide Judging;
    if k == |cs| {
      assert cs[..k] == cs;
    } else {
      var init := cs[..|cs| - 1];
      assert init[..k] == cs[..k];
      JudgingStops(env, w, j, d, turn, m, init, k);
    }
  }

  /** The search for the selected candidate. */
  method Find(cs: seq<Candidate>, id: ID) returns (c: Option<Candidate>)
    ensures c == First(cs, id)
  {
    for k := 0 to |cs|
      invariant First(cs, id) == First(cs[k..], id)
    {
      if cs[k].id == id { return Some(cs[k]); }
      assert cs[k..][1..] == cs[k + 1..];
    }
    return None;
  }

  /** A recorded decision for this turn, valid for its request, that selected this candidate. */
  ghost predicate RoutedAt(rs: seq<ExecutionRecord>, i: int, turn: int, c: Candidate) {
    0 <= i < |rs| && rs[i].routing.Some? && rs[i].turn == turn &&
    ValidDecision(rs[i].routing.value.decision, rs[i].routing.value.request) &&
    rs[i].routing.value.decision.selected == c.id && c in rs[i].routing.value.request.candidates
  }
}
