/**
 Placement requests, the ordered eligibility gates, and the check that every
 routing decision must pass whatever router produced it (routing.go).
 */
module Routing {
  import opened Types
  import opened Policy

  const PERMILLE: int := 1000

  predicate Permille(n: int) {
    0 <= n <= PERMILLE
  }

  function WeightTotal(w: Weights): int {
    w.quality + w.locality + w.availability + w.cacheAffinity + w.cost + w.latency + w.inverseLoad
  }

  predicate ValidWeights(w: Weights) {
    && Permille(w.quality) && Permille(w.locality) && Permille(w.availability) && Permille(w.cacheAffinity)
    && Permille(w.cost) && Permille(w.latency) && Permille(w.inverseLoad) && WeightTotal(w) == PERMILLE
  }

  predicate Distinct<T(==)>(s: seq<T>) {
    forall i, j :: 0 <= i < j < |s| ==> s[i] != s[j]
  }

  predicate StringSet(s: seq<string>) {
    Distinct(s) && forall i :: 0 <= i < |s| ==> !Blank(s[i])
  }

  predicate ValidCapabilities(c: Capabilities) {
    && c.contextTokens >= 0 && c.maxOutputTokens >= 0
    && (c.contextTokens > 0 ==> c.maxOutputTokens <= c.contextTokens)
    && c.toolUse != UnknownToolUse
    && Distinct(c.modalities) && forall i :: 0 <= i < |c.modalities| ==> Clean(c.modalities[i])
  }

  predicate ValidCandidate(c: Candidate) {
    && c.id != ZERO_ID && ValidZone(c.zone) && ValidModel(c.model.ref) && ValidCapabilities(c.model.capabilities)
    && StringSet(c.availableTools) && c.availableSlots >= 0 && c.availableAt != 0
    && c.expectedCost >= 0 && c.expectedLatency >= 0
    && Permille(c.qualityPermille) && Permille(c.cacheAffinityPermille) && Permille(c.loadPermille)
  }

  // ---- Times: nanoseconds, with differences saturated to int64 ----------

  function Sub(a: int, b: int): int {
    if a - b > MAX_INT64 then MAX_INT64 else if a - b < -MAX_INT64 - 1 then -MAX_INT64 - 1 else a - b
  }

  function Later(a: int, b: int): int {
    if b > a then b else a
  }

  // ---- Requests ----------------------------------------------------------

  /** Everything RoutingRequest.Validate checks before it looks at the candidates. */
  predicate ValidHeader(r: RoutingRequest) {
    && r.workload != ZERO_ID && r.step != ZERO_ID && r.attempt != ZERO_ID && ValidSHA(r.manifestSHA)
    && ValidZone(r.sourceZone) && (r.derivedFrom != "" ==> ValidSHA(r.derivedFrom))
    && ValidRequirements(r.requirements) && StringSet(r.requirements.modalities)
    && StringSet(r.requirements.requiredTools) && Distinct(r.requirements.allowedZones)
    && ValidBudget(r.budget) && r.observedAt != 0 && r.deadline != 0 && r.deadline > r.observedAt
    && r.observedAt + Sub(r.deadline, r.observedAt) == r.deadline
    && ValidWeights(r.weights) && r.candidates != []
  }

  predicate DistinctIDs(cs: seq<Candidate>) {
    forall i, j :: 0 <= i < j < |cs| ==> cs[i].id != cs[j].id
  }

  predicate ValidRequest(r: RoutingRequest) {
    && ValidHeader(r)
    && (forall i :: 0 <= i < |r.candidates| ==> ValidCandidate(r.candidates[i]))
    && DistinctIDs(r.candidates)
    && ((exists i :: 0 <= i < |r.candidates| && r.candidates[i].zone != r.sourceZone) ==> !Blank(r.egressPurpose))
  }

  /** RoutingRequest.Validate: one pass with a set of seen identifiers and a cross-zone flag. */
  method ValidateRequest(r: RoutingRequest) returns (ok: bool)
    ensures ok <==> ValidRequest(r)
  {
    hide ValidHeader, ValidCandidate, Blank;
    if !ValidHeader(r) { return false; }
    var seen: set<ID> := {};
    var crossZone := false;
    for k := 0 to |r.candidates|
      invariant forall i :: 0 <= i < k ==> ValidCandidate(r.candidates[i])
      invariant forall i, j :: 0 <= i < j < k ==> r.candidates[i].id != r.candidates[j].id
      invariant forall i :: 0 <= i < k ==> r.candidates[i].id in seen
      invariant forall x :: x in seen ==> exists i :: 0 <= i < k && r.candidates[i].id == x
      invariant crossZone <==> exists i :: 0 <= i < k && r.candidates[i].zone != r.sourceZone
    {
      var c := r.candidates[k];
      if !ValidCandidate(c) { return false; }
      if c.id in seen { return false; }
      seen := seen + {c.id};
      crossZone := crossZone || c.zone != r.sourceZone;
    }
    if crossZone && Blank(r.egressPurpose) { return false; }
    return true;
  }

  // ---- Eligibility gates --------------------------------------------------

  function ExecutionScopeOf(r: RoutingRequest, c: Candidate): Scope {
    Scope(ExecutionScope, r.workload, r.step, r.attempt, ModelTurn, r.autonomous,
          Some(Target(NO_SANDBOX, ModelTarget, c.zone, Some(c.model.ref), "")), NoZone, NoZone, "", "")
  }

  function EgressScopeOf(r: RoutingRequest, c: Candidate): Scope {
    Scope(EgressScope, r.workload, r.step, ZERO_ID, NoStepKind, false, None,
          r.sourceZone, c.zone, r.egressPurpose, r.derivedFrom)
  }

  function VerdictExclusion(v: Verdict, digest: string, scope: Scope): (p: Option<VerdictProblem>)
    ensures p.None? <==> ValidVerdict(v) && v.manifestSHA == digest && v.scope == scope && v.action == Allow
  {
    if !ValidVerdict(v) then Some(InvalidVerdict)
    else if v.manifestSHA != digest then Some(ManifestMismatch)
    else if !SameScope(v.scope, scope) then Some(ScopeMismatch)
    else if v.action != Allow then Some(NotAllowed)
    else None
  }

  /** The first required name the candidate does not offer. */
  function FirstMissing(required: seq<string>, offered: seq<string>): (m: Option<string>)
    ensures m.None? <==> forall i :: 0 <= i < |required| ==> required[i] in offered
    ensures m.Some? ==> m.value in required && m.value !in offered
  {
    if required == [] then None
    else if required[0] !in offered then Some(required[0])
    else FirstMissing(required[1..], offered)
  }

  /** Identity, compatibility, health, zone and policy: the gates that come before capability. */
  function TrustExclusion(r: RoutingRequest, c: Candidate): Option<Exclusion> {
    if !c.authenticated then Some(Unauthenticated)
    else if !c.compatible then Some(Incompatible)
    else if !c.healthy then Some(Unhealthy)
    else if c.draining then Some(Draining)
    else if r.requirements.allowedZones != [] && c.zone !in r.requirements.allowedZones then Some(ZoneDenied)
    else
      var execution := VerdictExclusion(c.executionVerdict, r.manifestSHA, ExecutionScopeOf(r, c));
      if execution.Some? then Some(ExecutionVerdictRejected(execution.value))
      else if c.zone == r.sourceZone then None
      else if c.egressVerdict.None? then Some(EgressVerdictMissing)
      else
        var egress := VerdictExclusion(c.egressVerdict.value, r.manifestSHA, EgressScopeOf(r, c));
        if egress.Some? then Some(EgressVerdictRejected(egress.value)) else None
  }

  function FitExclusion(r: RoutingRequest, c: Candidate): Option<Exclusion> {
    var caps := c.model.capabilities;
    var modality := FirstMissing(r.requirements.modalities, caps.modalities);
    var tool := FirstMissing(r.requirements.requiredTools, c.availableTools);
    var start := Later(r.observedAt, c.availableAt);
    if modality.Some? then Some(ModalityMissing(modality.value))
    else if tool.Some? then Some(ToolMissing(tool.value))
    else if r.requirements.requiredTools != [] && caps.toolUse == NoToolUse then Some(ToolUseMissing)
    else if r.requirements.nativeToolUse && caps.toolUse != NativeToolUse then Some(NativeToolUseMissing)
    else if r.requirements.structuredOutput && !caps.structuredOutput then Some(StructuredOutputMissing)
    else if caps.contextTokens < r.requirements.minContextTokens then Some(ContextInsufficient)
    else if caps.maxOutputTokens < r.budget.maxOutput then Some(OutputInsufficient)
    else if c.expectedCost > r.budget.maxCost then Some(CostUnreservable)
    else if c.availableSlots == 0 then Some(CapacityUnavailable)
    else if start > r.deadline || c.expectedLatency > Sub(r.deadline, start) then Some(DeadlineUnreachable)
    else None
  }

  /** candidateExclusion: the first gate the candidate fails, in the canonical order. */
  function CandidateExclusion(r: RoutingRequest, c: Candidate): (e: Option<Exclusion>)
    ensures e != Some(UnstatedExclusion)
  {
    var trust := TrustExclusion(r, c);
    if trust.Some? then trust else FitExclusion(r, c)
  }

  /** The candidate passed every gate. */
  predicate Eligible(r: RoutingRequest, c: Candidate) {
    CandidateExclusion(r, c).None?
  }

  /** What being past the policy gates says: verdicts that allow exactly this placement. */
  predicate Authorized(r: RoutingRequest, c: Candidate) {
    && ValidVerdict(c.executionVerdict) && c.executionVerdict.action == Allow
    && c.executionVerdict.manifestSHA == r.manifestSHA && c.executionVerdict.scope == ExecutionScopeOf(r, c)
    && (c.zone != r.sourceZone ==>
          && c.egressVerdict.Some? && ValidVerdict(c.egressVerdict.value) && c.egressVerdict.value.action == Allow
          && c.egressVerdict.value.manifestSHA == r.manifestSHA && c.egressVerdict.value.scope == EgressScopeOf(r, c))
  }

  lemma EligibleIsAuthorized(r: RoutingRequest, c: Candidate)
    requires Eligible(r, c)
    ensures Authorized(r, c)
  {
  }

  /** The candidate is known, usable and in an allowed zone. */
  predicate Trusted(r: RoutingRequest, c: Candidate) {
    && c.authenticated && c.compatible && c.healthy && !c.draining
    && (r.requirements.allowedZones == [] || c.zone in r.requirements.allowedZones)
  }

  /** The candidate offers what the request needs, within its budget and before its deadline. */
  predicate Capable(r: RoutingRequest, c: Candidate) {
    var needs, caps := r.requirements, c.model.capabilities;
    var free := if c.availableAt > r.observedAt then c.availableAt else r.observedAt;
    && (forall m :: m in needs.modalities ==> m in caps.modalities)
    && (forall t :: t in needs.requiredTools ==> t in c.availableTools)
    && (needs.requiredTools != [] ==> caps.toolUse != NoToolUse)
    && (needs.nativeToolUse ==> caps.toolUse == NativeToolUse)
    && (needs.structuredOutput ==> caps.structuredOutput)
    && needs.minContextTokens <= caps.contextTokens && r.budget.maxOutput <= caps.maxOutputTokens
    && c.expectedCost <= r.budget.maxCost && c.availableSlots != 0
    && free <= r.deadline && free + c.expectedLatency <= r.deadline
  }

  /** A candidate is eligible exactly when it is trusted, authorized for this placement and capable. */
  lemma EligibleIff(r: RoutingRequest, c: Candidate)
    requires c.expectedLatency <= MAX_INT64
    ensures Eligible(r, c) <==> Trusted(r, c) && Authorized(r, c) && Capable(r, c)
  {
    hide FirstMissing, ValidVerdict;
    assert FirstMissing(r.requirements.modalities, c.model.capabilities.modalities).None? <==>
           forall m :: m in r.requirements.modalities ==> m in c.model.capabilities.modalities;
    assert FirstMissing(r.requirements.requiredTools, c.availableTools).None? <==>
           forall t :: t in r.requirements.requiredTools ==> t in c.availableTools;
  }

  predicate Rejects(v: Verdict, digest: string, scope: Scope, p: VerdictProblem) {
    match p
    case InvalidVerdict => !ValidVerdict(v)
    case ManifestMismatch => v.manifestSHA != digest
    case ScopeMismatch => v.scope != scope
    case NotAllowed => v.action != Allow
  }

  /** The candidate fails the gate that this exclusion names. */
  predicate Fails(r: RoutingRequest, c: Candidate, e: Exclusion) {
    var needs, caps := r.requirements, c.model.capabilities;
    var free := if c.availableAt > r.observedAt then c.availableAt else r.observedAt;
    match e
    case Unauthenticated => !c.authenticated
    case Incompatible => !c.compatible
    case Unhealthy => !c.healthy
    case Draining => c.draining
    case ZoneDenied => needs.allowedZones != [] && c.zone !in needs.allowedZones
    case ExecutionVerdictRejected(p) => Rejects(c.executionVerdict, r.manifestSHA, ExecutionScopeOf(r, c), p)
    case EgressVerdictMissing => c.zone != r.sourceZone && c.egressVerdict.None?
    case EgressVerdictRejected(p) =>
      c.zone != r.sourceZone && c.egressVerdict.Some? && Rejects(c.egressVerdict.value, r.manifestSHA, EgressScopeOf(r, c), p)
    case ModalityMissing(m) => m in needs.modalities && m !in caps.modalities
    case ToolMissing(t) => t in needs.requiredTools && t !in c.availableTools
    case ToolUseMissing => needs.requiredTools != [] && caps.toolUse == NoToolUse
    case NativeToolUseMissing => needs.nativeToolUse && caps.toolUse != NativeToolUse
    case StructuredOutputMissing => needs.structuredOutput && !caps.structuredOutput
    case ContextInsufficient => caps.contextTokens < needs.minContextTokens
    case OutputInsufficient => caps.maxOutputTokens < r.budget.maxOutput
    case CostUnreservable => c.expectedCost > r.budget.maxCost
    case CapacityUnavailable => c.availableSlots == 0
    case DeadlineUnreachable => free > r.deadline || free + c.expectedLatency > r.deadline
    case UnstatedExclusion => false
  }

  function ProblemRank(p: VerdictProblem): nat {
    match p
    case InvalidVerdict => 0
    case ManifestMismatch => 1
    case ScopeMismatch => 2
    case NotAllowed => 3
  }

  /** The canonical order of the gates. */
  function GateRank(e: Exclusion): nat {
    match e
    case Unauthenticated => 0
    case Incompatible => 1
    case Unhealthy => 2
    case Draining => 3
    case ZoneDenied => 4
    case ExecutionVerdictRejected(p) => 5 + ProblemRank(p)
    case EgressVerdictMissing => 9
    case EgressVerdictRejected(p) => 10 + ProblemRank(p)
    case ModalityMissing(_) => 14
    case ToolMissing(_) => 15
    case ToolUseMissing => 16
    case NativeToolUseMissing => 17
    case StructuredOutputMissing => 18
    case ContextInsufficient => 19
    case OutputInsufficient => 20
    case CostUnreservable => 21
    case CapacityUnavailable => 22
    case DeadlineUnreachable => 23
    case UnstatedExclusion => 24
  }

  const FIT_GATES := 14

  lemma TrustIsFirst(r: RoutingRequest, c: Candidate)
    ensures match TrustExclusion(r, c)
      case Some(e) => Fails(r, c, e) && GateRank(e) < FIT_GATES && forall f :: Fails(r, c, f) ==> GateRank(e) <= GateRank(f)
      case None => forall f :: Fails(r, c, f) ==> GateRank(f) >= FIT_GATES
  {
    hide ValidVerdict;
  }

  lemma FitIsFirst(r: RoutingRequest, c: Candidate, e: Exclusion)
    requires c.expectedLatency <= MAX_INT64 && FitExclusion(r, c) == Some(e)
    ensures Fails(r, c, e) && GateRank(e) >= FIT_GATES
    ensures forall f :: Fails(r, c, f) && GateRank(f) >= FIT_GATES ==> GateRank(e) <= GateRank(f)
  {
    hide FirstMissing, Rejects, ExecutionScopeOf, EgressScopeOf;
    assert FirstMissing(r.requirements.modalities, c.model.capabilities.modalities).None? <==>
           forall m :: m in r.requirements.modalities ==> m in c.model.capabilities.modalities;
    assert FirstMissing(r.requirements.requiredTools, c.availableTools).None? <==>
           forall t :: t in r.requirements.requiredTools ==> t in c.availableTools;
  }

  /** The stated exclusion is a gate the candidate fails, and none that comes before it in the canonical order is. */
  lemma ExclusionIsFirst(r: RoutingRequest, c: Candidate, e: Exclusion)
    requires c.expectedLatency <= MAX_INT64 && CandidateExclusion(r, c) == Some(e)
    ensures Fails(r, c, e)
    ensures forall f :: Fails(r, c, f) ==> GateRank(e) <= GateRank(f)
  {
    hide TrustExclusion, FitExclusion, Fails, GateRank;
    TrustIsFirst(r, c);
    if TrustExclusion(r, c).None? { FitIsFirst(r, c, e); }
  }

  // ---- Decisions -----------------------------------------------------------

  predicate ValidScore(s: Score) {
    && Permille(s.quality) && Permille(s.locality) && Permille(s.availability) && Permille(s.cacheAffinity)
    && Permille(s.cost) && Permille(s.latency) && Permille(s.inverseLoad) && Permille(s.total)
  }

  predicate ValidAssessment(a: Assessment) {
    && a.candidate != ZERO_ID && ValidZone(a.zone) && ValidModel(a.model)
    && (if a.eligible then a.exclusion.None? && a.score.Some? && ValidScore(a.score.value)
        else a.exclusion.Some? && a.score.None? && a.exclusion.value != UnstatedExclusion)
  }

  /** The assessment is the candidate's own, well formed, and states the canonical gate result. */
  predicate Assesses(r: RoutingRequest, c: Candidate, a: Assessment) {
    && a.candidate == c.id && a.zone == c.zone && a.model == c.model.ref && ValidAssessment(a)
    && a.eligible == Eligible(r, c)
    && (!a.eligible ==> a.exclusion == CandidateExclusion(r, c))
  }

  predicate EchoesRequest(d: RoutingDecision, r: RoutingRequest) {
    && !Blank(d.router) && !Blank(d.version)
    && d.workload == r.workload && d.step == r.step && d.attempt == r.attempt && d.manifestSHA == r.manifestSHA
    && d.sourceZone == r.sourceZone && d.autonomous == r.autonomous && d.egressPurpose == r.egressPurpose
    && d.derivedFrom == r.derivedFrom && d.observedAt == r.observedAt && d.deadline == r.deadline
    && d.weights == r.weights
  }

  predicate ValidDecision(d: RoutingDecision, r: RoutingRequest) {
    && ValidRequest(r) && EchoesRequest(d, r) && |d.assessments| == |r.candidates|
    && (forall i :: 0 <= i < |r.candidates| ==> Assesses(r, r.candidates[i], d.assessments[i]))
    && (if d.selected == ZERO_ID then forall i :: 0 <= i < |r.candidates| ==> !Eligible(r, r.candidates[i])
        else exists i :: 0 <= i < |r.candidates| && Eligible(r, r.candidates[i]) && r.candidates[i].id == d.selected)
  }

  /** RoutingDecision.Validate: one pass over the assessments with a counter and a flag. */
  method ValidateDecision(d: RoutingDecision, r: RoutingRequest) returns (ok: bool)
    ensures ok <==> ValidDecision(d, r)
  {
    hide ValidRequest, EchoesRequest, ValidAssessment, CandidateExclusion;
    ok := ValidateRequest(r);
    if !ok { return; }
    if !EchoesRequest(d, r) || |d.assessments| != |r.candidates| { return false; }
    var selectedFound := false;
    var eligibleCount := 0;
    for k := 0 to |d.assessments|
      invariant forall i :: 0 <= i < k ==> Assesses(r, r.candidates[i], d.assessments[i])
      invariant eligibleCount >= 0
      invariant eligibleCount == 0 <==> forall i :: 0 <= i < k ==> !Eligible(r, r.candidates[i])
      invariant selectedFound <==>
        exists i :: 0 <= i < k && Eligible(r, r.candidates[i]) && r.candidates[i].id == d.selected
    {
      var a, c := d.assessments[k], r.candidates[k];
      if a.candidate != c.id { return false; }
      if a.zone != c.zone || a.model != c.model.ref { return false; }
      if !ValidAssessment(a) { return false; }
      var expected := CandidateExclusion(r, c);
      if expected.None? && !a.eligible { return false; }
      if expected.Some? && (a.eligible || a.exclusion.None? || a.exclusion != expected) { return false; }
      if a.eligible {
        eligibleCount := eligibleCount + 1;
        if a.candidate == d.selected { selectedFound := true; }
      }
    }
    if d.selected == ZERO_ID { return eligibleCount == 0; }
    return selectedFound;
  }

  /** In an accepted decision the selected identifier names exactly one candidate, and it passed every gate. */
  lemma SelectedUnique(d: RoutingDecision, r: RoutingRequest) returns (k: nat)
    requires ValidDecision(d, r) && d.selected != ZERO_ID
    ensures k < |r.candidates| && r.candidates[k].id == d.selected
    ensures Eligible(r, r.candidates[k]) && Authorized(r, r.candidates[k])
    ensures forall i :: 0 <= i < |r.candidates| && r.candidates[i].id == d.selected ==> i == k
  {
    k :| 0 <= k < |r.candidates| && Eligible(r, r.candidates[k]) && r.candidates[k].id == d.selected;
    EligibleIsAuthorized(r, r.candidates[k]);
  }

  // ---- An untrusted router -------------------------------------------------

  datatype RouterAnswer = NoRouter | RouterFailed | Routed(decision: RoutingDecision) | NoRoute(refusal: RoutingDecision)
  datatype Evaluated = Rejected | Placed(decision: RoutingDecision) | NonePlaced(refusal: RoutingDecision)

  /** What becomes of a router's answer: only a decision that is valid for the request counts, with or without a selection. */
  function Evaluation(answer: RouterAnswer, r: RoutingRequest): (e: Evaluated)
    ensures e.Placed? ==> answer == Routed(e.decision) && ValidDecision(e.decision, r) && e.decision.selected != ZERO_ID
    ensures e.NonePlaced? ==> answer == NoRoute(e.refusal) && ValidDecision(e.refusal, r) && e.refusal.selected == ZERO_ID
    ensures e.Placed? <==> answer.Routed? && ValidDecision(answer.decision, r) && answer.decision.selected != ZERO_ID
  {
    match answer
    case Routed(d) => if ValidDecision(d, r) && d.selected != ZERO_ID then Placed(d) else Rejected
    case NoRoute(d) => if ValidDecision(d, r) && d.selected == ZERO_ID then NonePlaced(d) else Rejected
    case _ => Rejected
  }

  /** EvaluateRouter: whatever the router answers, only an accepted decision gets through. */
  method EvaluateRouter(answer: RouterAnswer, r: RoutingRequest) returns (e: Evaluated)
    ensures e.Placed? ==> answer == Routed(e.decision) && ValidDecision(e.decision, r) && e.decision.selected != ZERO_ID
    ensures e.NonePlaced? ==> answer == NoRoute(e.refusal) && ValidDecision(e.refusal, r)
    ensures e.NonePlaced? ==> forall i :: 0 <= i < |r.candidates| ==> !Eligible(r, r.candidates[i])
    ensures e.Placed? <==> answer.Routed? && ValidDecision(answer.decision, r) && answer.decision.selected != ZERO_ID
    ensures e == Evaluation(answer, r)
  {
    var valid := ValidateRequest(r);
    if !valid || answer.NoRouter? || answer.RouterFailed? { return Rejected; }
    var d := if answer.Routed? then answer.decision else answer.refusal;
    valid := ValidateDecision(d, r);
    if !valid { return Rejected; }
    if answer.NoRoute? {
      return if d.selected != ZERO_ID then Rejected else NonePlaced(d);
    }
    return if d.selected == ZERO_ID then Rejected else Placed(d);
  }
}
