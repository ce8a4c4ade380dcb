/**
 Secret content and provider streams: what of a conversation with secret parts can reach a
 provider, and exactly when anything of it does (engine.go, lifecycle.go, context.go).
 */
module Secrets {
  import opened Types
  import opened Policy
  import opened Routing
  import opened Engine
  import opened Placement
  import Context

  /** No verdict on a sensitive conversation is ever an allow. */
  lemma SensitiveNeverAllowed(env: Env, w: Collaborators, j: Job, codec: Codec, ms: seq<Message>, m: Manifest, rs: seq<ExecutionRecord>, original: Candidate, c: Candidate)
    requires ValidClass(j.level) && ManifestOf(codec, ms, j.level, m) && Sensitive(ms, j.level)
    requires Judged(env, w, j, m, rs, original, c)
    ensures c.executionVerdict.action != Allow
  {
    hide Cleared, ExecutionAnswered, EgressAnswered, Digest;
    SensitiveIsSecret(ms, j.level, m);
  }

  /** Placed as it stands, a sensitive conversation never reaches a provider, whatever the collaborators do. */
  lemma SensitiveNeverPlaced(env: Env, w: Collaborators, j: Job, d: Desk, turn: int, codec: Codec, ms: seq<Message>, m: Manifest, usage: Usage, cs: seq<Candidate>)
    requires ValidClass(j.level) && ManifestOf(codec, ms, j.level, m) && Sensitive(ms, j.level)
    ensures var (_, placed) := Placing(env, w, j, d, turn, m, usage, cs); placed.None?
  {
    hide Placing, Judged, RoutedAt, ManifestClass;
    SensitiveIsSecret(ms, j.level, m);
    var k := PlacingCleared(env, w, j, d, turn, m, usage, cs);
    var (d', placed) := Placing(env, w, j, d, turn, m, usage, cs);
    assert placed.None?;
  }

  /** Nothing of a message above the workload's level is in a summary's prompt. */
  lemma SecretNeverSummarized(s: Context.Setting, ms: seq<Message>, m: Message, i: nat)
    requires m in Context.Kept(s.level, ms) && i < |m.content|
    ensures m in ms && Rank(Context.Labelled(m.content[i].level)) <= Rank(s.level)
  {
    Context.KeptPermitted(s.level, ms);
    Context.RaisedByBound(Public, m.content, s.level);
  }

  // ---- When a stream can open ----------------------------------------------------------------------

  /** The conversations that one turn puts to placement: a summary's prompt, and the conversation or its summary. */
  ghost predicate PutToPlacement(s: Context.Setting, ms: seq<Message>, calls: int, conversation: seq<Message>) {
    || (Context.Asks(s, ms, calls) && conversation == [Context.Prompt(s, Context.Kept(s.level, ms))])
    || (Context.Keeps(s, ms) && conversation == ms)
    || (Context.Replaces(s, ms, calls) &&
        conversation == [Context.SummaryOf(s, s.summarize([Context.Prompt(s, Context.Kept(s.level, ms))]).value)])
  }

  /** Everything about a turn's placement except the conversation and the collaborators. */
  datatype Scene = Scene(
    env: Env, codec: Codec, job: Job, desk: Desk, turn: int, usage: Usage, candidates: seq<Candidate>, reserved: Spend, cap: int)

  /** Both hashes are 64 hexadecimal digits, as SHA-256 in hexadecimal is. */
  ghost predicate HexHashes(x: Scene) {
    (forall b :: ValidSHA(x.env.sha256(b))) && (forall ms :: ValidSHA(x.codec.hash(ms)))
  }

  /** An estimate that reserve accepts. */
  predicate Reservable(b: Budget, reserved: Spend, estimate: Spend, cap: int) {
    ValidSpend(estimate) && FitsWith(reserved, estimate, Limit(b)) && cap <= estimate.output
  }

  /** reserve returns a bound exactly for an acceptable estimate whose record is stored. */
  lemma ReservingIff(r: Request, run: RunState, log: seq<Event>, turn: int, estimate: Spend, cap: int, how: How)
    ensures var (_, _, bound) := Reserving(r, run, log, turn, Some(estimate), cap, how);
      bound.Some? <==> Reservable(r.budget, run.reserved, estimate, cap) && !run.storeErr && |log| == run.sequence && how.fault == Delivered
  {
    hide BudgetEntry, Plus, AtMost, FitsWith, Limit, Sealed;
    AppendOutcome(r, run, log, [BudgetEntry(r, turn, BudgetRecord(estimate, NoDimension))], how);
  }

  /** These collaborators and this estimate place the conversation and reserve its call: nothing but the stream is left to do. */
  ghost predicate StreamOpens(x: Scene, w: Collaborators, estimate: Spend, conversation: seq<Message>) {
    && AllInline(conversation)
    && (exists m :: PlacedAs(x, w, conversation, m))
    && Reservable(x.job.budget, x.reserved, estimate, x.cap)
  }

  ghost predicate PlacedAs(x: Scene, w: Collaborators, conversation: seq<Message>, m: Manifest) {
    ManifestOf(x.codec, conversation, x.job.level, m) &&
    var (_, placed) := Placing(x.env, w, x.job, x.desk, x.turn, m, x.usage, x.candidates);
    placed.Some?
  }

  function AnySHA(): (sha: string)
    ensures ValidSHA(sha)
  {
    seq(64, i => '0')
  }

  /** The routing request as far as it does not depend on the content. */
  function Offer(j: Job, usage: Usage, cs: seq<Candidate>): RoutingRequest {
    var b := j.budget;
    RoutingRequest(j.workload, j.step, j.attempt, AnySHA(), j.zone, j.autonomous, PURPOSE, "", j.requirements,
                   b.(maxInput := b.maxInput - usage.input, maxOutput := b.maxOutput - usage.output, maxCost := b.maxCost - usage.cost),
                   j.observedAt, j.deadline, j.weights, cs)
  }

  /** Past every gate that does not ask for a verdict. */
  predicate Suited(rq: RoutingRequest, c: Candidate) {
    Trusted(rq, c) && FitExclusion(rq, c).None?
  }

  lemma SuitedIff(rq: RoutingRequest, c: Candidate)
    requires c.expectedLatency <= MAX_INT64
    ensures Suited(rq, c) <==> Trusted(rq, c) && Capable(rq, c)
  {
    hide FirstMissing;
    assert FirstMissing(rq.requirements.modalities, c.model.capabilities.modalities).None? <==>
           forall m :: m in rq.requirements.modalities ==> m in c.model.capabilities.modalities;
    assert FirstMissing(rq.requirements.requiredTools, c.availableTools).None? <==>
           forall t :: t in rq.requirements.requiredTools ==> t in c.availableTools;
  }

  /** The request is valid and some candidate fits it. */
  predicate Servable(j: Job, usage: Usage, cs: seq<Candidate>) {
    var rq := Offer(j, usage, cs);
    ValidRequest(rq) && exists i :: 0 <= i < |cs| && Suited(rq, cs[i])
  }

  /** The budget leaves room for the output cap. */
  predicate Affordable(b: Budget, reserved: Spend, cap: int) {
    FitsWith(reserved, Spend(0, Later(0, cap), 0), Limit(b))
  }

  /** The verdicts aside, the judged candidate is the caller's. */
  predicate SameBut(a: Candidate, b: Candidate) {
    b == a.(executionVerdict := b.executionVerdict, egressVerdict := b.egressVerdict)
  }

  predicate AllSameBut(cs: seq<Candidate>, judged: seq<Candidate>) {
    |judged| == |cs| && forall i :: 0 <= i < |cs| ==> SameBut(cs[i], judged[i])
  }

  /** Verdicts have no part in whether a request is valid. */
  lemma OfferValid(env: Env, j: Job, m: Manifest, usage: Usage, cs: seq<Candidate>, judged: seq<Candidate>)
    requires ValidSHA(Digest(env, m)) && AllSameBut(cs, judged)
    ensures ValidRequest(RoutingOf(env, j, m, usage, judged)) <==> ValidRequest(Offer(j, usage, cs))
  {
    hide Digest, ValidModel, ValidCapabilities, StringSet, Blank, ValidRequirements, ValidBudget, ValidWeights, Sub;
    var a, b := RoutingOf(env, j, m, usage, judged), Offer(j, usage, cs);
    assert forall i :: 0 <= i < |cs| ==> (ValidCandidate(judged[i]) <==> ValidCandidate(cs[i])) && judged[i].id == cs[i].id && judged[i].zone == cs[i].zone;
  }

  lemma FitSame(env: Env, j: Job, m: Manifest, usage: Usage, cs: seq<Candidate>, judged: seq<Candidate>, a: Candidate, b: Candidate)
    requires SameBut(a, b)
    ensures Suited(RoutingOf(env, j, m, usage, judged), b) <==> Suited(Offer(j, usage, cs), a)
  {
    hide Digest, FirstMissing;
  }

  /** Whatever was placed was servable. */
  lemma PlacedServable(env: Env, w: Collaborators, j: Job, d: Desk, turn: int, m: Manifest, usage: Usage, cs: seq<Candidate>)
    requires ValidSHA(Digest(env, m))
    requires var (_, placed) := Placing(env, w, j, d, turn, m, usage, cs); placed.Some?
    ensures Servable(j, usage, cs)
  {
    hide JudgingAll, Choosing, Digest, ValidRequest, Suited, Eligible, Authorized, Assesses, EchoesRequest, ValidSHA, Cleared, RoutingOf,
         Offer, ExecutionAnswered, EgressAnswered;
    JudgingAllJudges(env, w, j, d, turn, m, cs);
    var (d1, judged) := JudgingAll(env, w, j, d, turn, m, cs);
    var rq := RoutingOf(env, j, m, usage, judged.value);
    ChoosingRecords(w, j, d1, turn, m, rq);
    var (d', placed) := Choosing(w, j, d1, turn, m, rq);
    var decision := d'.records[|d1.records|].routing.value.decision;
    RoutedCandidates(env, j, m, usage, judged.value);
    var k := SelectedUnique(decision, rq);
    EligibleSuited(rq, judged.value[k]);
    assert AllSameBut(cs, judged.value);
    OfferValid(env, j, m, usage, cs, judged.value);
    FitSame(env, j, m, usage, cs, judged.value, cs[k], judged.value[k]);
  }

  lemma RoutedCandidates(env: Env, j: Job, m: Manifest, usage: Usage, cs: seq<Candidate>)
    ensures RoutingOf(env, j, m, usage, cs).candidates == cs
  {
  }

  lemma EligibleSuited(rq: RoutingRequest, c: Candidate)
    requires Eligible(rq, c)
    ensures Suited(rq, c)
  {
    hide VerdictExclusion, FitExclusion;
  }

  // ---- Obliging collaborators ------------------------------------------------------------------------

  function Permission(digest: string, scope: Scope): Verdict {
    Verdict("policy", "1", "rule", Allow, "allowed", digest, scope, "")
  }

  function Assessed(rq: RoutingRequest, c: Candidate): Assessment {
    var exclusion := CandidateExclusion(rq, c);
    Assessment(c.id, c.zone, c.model.ref, exclusion.None?, exclusion, if exclusion.None? then Some(Score(0, 0, 0, 0, 0, 0, 0, 0)) else None)
  }

  function FirstEligible(rq: RoutingRequest, k: nat): (id: ID)
    requires k <= |rq.candidates|
    ensures (exists i :: k <= i < |rq.candidates| && Eligible(rq, rq.candidates[i])) ==>
              exists i :: k <= i < |rq.candidates| && Eligible(rq, rq.candidates[i]) && rq.candidates[i].id == id
    decreases |rq.candidates| - k
  {
    if k == |rq.candidates| then ZERO_ID
    else if Eligible(rq, rq.candidates[k]) then rq.candidates[k].id
    else FirstEligible(rq, k + 1)
  }

  function Obligingly(rq: RoutingRequest): RoutingDecision {
    RoutingDecision("router", "1", rq.workload, rq.step, rq.attempt, rq.manifestSHA, rq.sourceZone, rq.autonomous, rq.egressPurpose,
                    rq.derivedFrom, rq.observedAt, rq.deadline, rq.weights,
                    seq(|rq.candidates|, i requires 0 <= i < |rq.candidates| => Assessed(rq, rq.candidates[i])), FirstEligible(rq, 0))
  }

  /** Policies that allow whatever they are asked, a router that takes the first eligible candidate, and a store that never fails. */
  function Obliging(env: Env): Collaborators {
    Collaborators(
      (t: nat, q: ExecutionRequest) => Answered(Permission(Digest(env, q.manifest), ScopeForExecution(q))),
      (t: nat, q: EgressRequest) => Answered(Permission(Digest(env, q.manifest), ScopeForEgress(q))),
      None, (t: nat, rq: RoutingRequest) => Routed(Obligingly(rq)), (t: nat) => true, (t: nat) => false, (p: string) => true)
  }

  lemma PermissionValid(digest: string, scope: Scope)
    requires ValidSHA(digest) && ValidScope(scope)
    ensures ValidVerdict(Permission(digest, scope))
  {
    hide ValidScope, ValidSHA;
    var v := Permission(digest, scope);
    assert !IsSpace(v.policy[0]) && !IsSpace(v.version[0]) && !IsSpace(v.rule[0]) && !IsSpace(v.reason[0]);
  }

  lemma PurposeStated()
    ensures !Blank(PURPOSE)
  {
    assert !IsSpace(PURPOSE[0]);
  }

  lemma ObligingFavours(env: Env, j: Job, m: Manifest, usage: Usage, cs: seq<Candidate>, c: Candidate)
    requires ValidSHA(Digest(env, m)) && ValidManifest(m) && ManifestClass(m.items) != Secret && ValidHeader(Offer(j, usage, cs)) && ValidCandidate(c)
    ensures FavoursCandidate(env, Obliging(env), j, m, c)
  {
    hide ValidManifest, ManifestClass, Digest, ValidSHA, ValidVerdict, Blank, ValidModel, ValidCapabilities, StringSet;
    PurposeStated();
    PermissionValid(Digest(env, m), ScopeForExecution(Question(j, c, m)));
    if c.zone != j.zone { PermissionValid(Digest(env, m), ScopeForEgress(EgressQuestion(j, c, m))); }
  }

  lemma GrantedEligible(env: Env, j: Job, m: Manifest, usage: Usage, cs: seq<Candidate>, judged: seq<Candidate>, a: Candidate, b: Candidate)
    requires Granted(env, j, m, a, b) && Suited(Offer(j, usage, cs), a)
    ensures Eligible(RoutingOf(env, j, m, usage, judged), b)
  {
    hide Digest, FitExclusion, ValidVerdict;
    FitSame(env, j, m, usage, cs, judged, a, b);
  }

  lemma ObliginglyValid(rq: RoutingRequest)
    requires ValidRequest(rq) && exists i :: 0 <= i < |rq.candidates| && Eligible(rq, rq.candidates[i])
    ensures ValidDecision(Obligingly(rq), rq) && Obligingly(rq).selected != ZERO_ID
  {
    hide CandidateExclusion, ValidHeader, StringSet, ValidCapabilities, ValidModel;
    var d := Obligingly(rq);
    assert !IsSpace(d.router[0]) && !IsSpace(d.version[0]);
    forall i | 0 <= i < |rq.candidates| ensures Assesses(rq, rq.candidates[i], d.assessments[i]) {
      assert ValidCandidate(rq.candidates[i]);
    }
  }

  /** Anything servable that is not secret is placed by obliging collaborators. */
  lemma ObligingPlaces(env: Env, j: Job, d: Desk, turn: int, m: Manifest, usage: Usage, cs: seq<Candidate>)
    requires ValidSHA(Digest(env, m)) && ValidManifest(m) && ManifestClass(m.items) != Secret && Servable(j, usage, cs)
    ensures var (_, placed) := Placing(env, Obliging(env), j, d, turn, m, usage, cs); placed.Some?
  {
    hide Digest, ValidManifest, ManifestClass, Suited, ValidSHA, Obligingly, FavoursCandidate, Placing, ValidHeader, ValidCandidate, Granted,
         DistinctIDs, Blank, ValidDecision, Eligible, RoutingOf, Offer;
    var w := Obliging(env);
    OfferCandidates(j, usage, cs);
    forall i | 0 <= i < |cs| ensures FavoursCandidate(env, w, j, m, cs[i]) {
      ObligingFavours(env, j, m, usage, cs, cs[i]);
    }
    forall judged: seq<Candidate> | |judged| == |cs| && (forall i :: 0 <= i < |cs| ==> Granted(env, j, m, cs[i], judged[i]))
      ensures Routes(w, RoutingOf(env, j, m, usage, judged))
    {
      ObligingRoutes(env, j, m, usage, cs, judged);
    }
    WillingPlaces(env, w, j, d, turn, m, usage, cs);
  }

  lemma OfferCandidates(j: Job, usage: Usage, cs: seq<Candidate>)
    ensures Offer(j, usage, cs).candidates == cs
  {
  }

  lemma ObligingRoutes(env: Env, j: Job, m: Manifest, usage: Usage, cs: seq<Candidate>, judged: seq<Candidate>)
    requires ValidSHA(Digest(env, m)) && Servable(j, usage, cs)
    requires |judged| == |cs| && forall i :: 0 <= i < |cs| ==> Granted(env, j, m, cs[i], judged[i])
    ensures Routes(Obliging(env), RoutingOf(env, j, m, usage, judged))
  {
    hide Digest, Suited, ValidSHA, Obligingly, ValidRequest, ValidDecision, Eligible, RoutingOf, Offer, ValidVerdict;
    var rq := RoutingOf(env, j, m, usage, judged);
    RoutedCandidates(env, j, m, usage, judged);
    assert AllSameBut(cs, judged);
    OfferValid(env, j, m, usage, cs, judged);
    var i :| 0 <= i < |cs| && Suited(Offer(j, usage, cs), cs[i]);
    GrantedEligible(env, j, m, usage, cs, judged, cs[i], judged[i]);
    ObliginglyValid(rq);
  }

  // ---- The exact condition ------------------------------------------------------------------------------

  /** A conversation of one text message at the workload's own level. */
  lemma PlainManifest(x: Scene, message: Message)
    requires HexHashes(x) && ValidClass(x.job.level) && |message.content| == 1
    requires message.content[0].kind == TextContent && message.content[0].level == x.job.level
    ensures AllInline([message])
    ensures var m := Manifest([ContentItem(x.codec.hash([message]), "application/json", x.codec.size([message]), x.job.level)]);
      && ManifestOf(x.codec, [message], x.job.level, m) && ValidManifest(m) && ValidSHA(Digest(x.env, m))
      && (x.job.level != Secret ==> ManifestClass(m.items) != Secret)
  {
    hide ValidSHA;
    var level := x.job.level;
    var m := Manifest([ContentItem(x.codec.hash([message]), "application/json", x.codec.size([message]), level)]);
    assert !IsSpace(m.items[0].mediaType[0]);
    assert Highest([message], level, level);
    SensitiveIsSecret([message], level, m);
  }

  lemma PromptOpens(x: Scene, s: Context.Setting, prompt: Message)
    requires HexHashes(x) && ValidClass(x.job.level) && x.job.level != Secret && |prompt.content| == 1
    requires prompt.content[0].kind == TextContent && prompt.content[0].level == x.job.level
    requires Servable(x.job, x.usage, x.candidates) && Affordable(x.job.budget, x.reserved, x.cap)
    ensures StreamOpens(x, Obliging(x.env), Spend(0, Later(0, x.cap), 0), [prompt])
  {
    hide HexHashes, Servable, Placing, Obliging, Digest, ManifestClass, ValidManifest, ValidSHA, AllInline, ManifestOf;
    PlainManifest(x, prompt);
    var m := Manifest([ContentItem(x.codec.hash([prompt]), "application/json", x.codec.size([prompt]), x.job.level)]);
    ObligingPlaces(x.env, x.job, x.desk, x.turn, m, x.usage, x.candidates);
    assert PlacedAs(x, Obliging(x.env), [prompt], m);
  }

  lemma OpenedServable(x: Scene, w: Collaborators, estimate: Spend, conversation: seq<Message>)
    requires HexHashes(x) && ValidClass(x.job.level) && StreamOpens(x, w, estimate, conversation)
    ensures !Sensitive(conversation, x.job.level)
    ensures Servable(x.job, x.usage, x.candidates) && Affordable(x.job.budget, x.reserved, x.cap)
  {
    hide Servable, Placing, ManifestClass, ValidManifest, ValidSHA, AllInline, ManifestOf, Sensitive;
    var m :| PlacedAs(x, w, conversation, m);
    assert ValidSHA(Digest(x.env, m));
    PlacedServable(x.env, w, x.job, x.desk, x.turn, m, x.usage, x.candidates);
    if Sensitive(conversation, x.job.level) {
      SensitiveNeverPlaced(x.env, w, x.job, x.desk, x.turn, x.codec, conversation, m, x.usage, x.candidates);
    }
  }

  /**
   "A sensitive conversation opens no provider stream" holds except in one case. Some collaborators let a stream open in its
   turn exactly when the turn asks for a summary of the permitted rest, the workload itself is not secret, the caller offers
   a candidate past all gates that need no verdict, and the budget leaves room for the output cap.
   */
  lemma SensitiveReachesIff(x: Scene, s: Context.Setting, ms: seq<Message>, calls: int)
    requires HexHashes(x) && ValidClass(s.level) && x.job.level == s.level && Sensitive(ms, s.level)
    ensures (exists w, estimate, c :: PutToPlacement(s, ms, calls, c) && StreamOpens(x, w, estimate, c)) <==>
            && Context.Asks(s, ms, calls) && s.level != Secret
            && Servable(x.job, x.usage, x.candidates) && Affordable(x.job.budget, x.reserved, x.cap)
  {
    hide Context.Asks, Context.Keeps, Context.Kept, HexHashes, Servable, Affordable, StreamOpens;
    var prompt := Context.Prompt(s, Context.Kept(s.level, ms));
    if exists w, estimate, c :: PutToPlacement(s, ms, calls, c) && StreamOpens(x, w, estimate, c) {
      var w, estimate, c :| PutToPlacement(s, ms, calls, c) && StreamOpens(x, w, estimate, c);
      OpenedServable(x, w, estimate, c);
    }
    if Context.Asks(s, ms, calls) && s.level != Secret && Servable(x.job, x.usage, x.candidates) && Affordable(x.job.budget, x.reserved, x.cap) {
      PromptOpens(x, s, prompt);
      assert PutToPlacement(s, ms, calls, [prompt]);
    }
  }

  /** Such a case: automatic compaction leaves the secret message out of a summary of the rest, and the summary's stream opens. */
  lemma SecretPartStillSummarized() returns (x: Scene, s: Context.Setting, ms: seq<Message>)
    ensures HexHashes(x) && x.job.level == s.level && Sensitive(ms, s.level) && Context.Asks(s, ms, 1)
    ensures exists prompt, estimate :: PutToPlacement(s, ms, 1, [prompt]) && StreamOpens(x, Obliging(x.env), estimate, [prompt])
  {
    hide Context.Kept, Servable, StreamOpens, Obliging;
    s, ms := SummarizedSetting();
    x := WorkingScene();
    var prompt := Context.Prompt(s, Context.Kept(s.level, ms));
    PromptOpens(x, s, prompt);
    assert PutToPlacement(s, ms, 1, [prompt]);
  }

  /** A nearly full window, a message that may be summarized and one that may not. */
  lemma SummarizedSetting() returns (s: Context.Setting, ms: seq<Message>)
    ensures Sensitive(ms, s.level) && Context.Asks(s, ms, 1) && s.level == Internal
  {
    var plain := Message(User, [ContentPart(TextContent, Internal, "a", ZERO_ID, "", "", "", false)]);
    var secret := Message(User, [ContentPart(TextContent, Secret, "b", ZERO_ID, "", "", "", false)]);
    var model := Descriptor(ModelRef("p", "m"), Capabilities(100, 100, [], NoToolUse, false));
    ms := [plain, secret];
    s := Context.Setting(Some((x: seq<Message>, d: Descriptor) => Some(if |x| == 2 then 90 else 1)), [model], 0, true, Internal, Internal, 5, x => Some("s"), x => "p");
    assert ms[1].content[0].level == Secret;
    assert Context.Declared(s, 0) && forall i :: Context.Declared(s, i) ==> i == 0;
    assert Context.Counted(s, ms, 0) == Some(90) && Context.Room(s, 0) == 100 && Context.Crosses(90, 100);
    Context.RaisedByBound(Public, plain.content, Internal);
    assert Context.Permitted(s.level, ms[0]);
    var prompt := [Context.Prompt(s, Context.Kept(s.level, ms))];
    assert Context.Counted(s, prompt, 0) == Some(1) && !Context.Overflows(1, 100);
  }

  /** One local candidate that fits, and a budget. */
  lemma WorkingScene() returns (x: Scene)
    ensures HexHashes(x) && x.job.level == Internal && Servable(x.job, x.usage, x.candidates) && Affordable(x.job.budget, x.reserved, x.cap)
  {
    var model := Descriptor(ModelRef("p", "m"), Capabilities(100, 100, [], NoToolUse, false));
    var verdict := Permission("", Scope(UnknownScope, 0, 0, 0, NoStepKind, false, None, NoZone, NoZone, "", ""));
    var candidate := Candidate(1, Personal, model, true, true, true, false, verdict, None, [], 1, 1, 0, 0, 0, 0, 0);
    var budget := Budget(1, 100, 100, 5, 0, 0, 100, 0);
    var job := Job(1, 1, 1, Personal, false, Internal, Requirements([], [], 0, [], false, false), budget, 1, 2, Weights(1000, 0, 0, 0, 0, 0, 0));
    x := Scene(Env(b => AnySHA(), t => true), Codec(c => AnySHA(), c => 1), job, Desk([], false, 0), 1, NO_USAGE, [candidate], NO_SPEND, 0);
    var rq := Offer(job, NO_USAGE, [candidate]);
    assert ValidCandidate(candidate);
    assert Sub(rq.deadline, rq.observedAt) == 1 by { assert MAX_INT64 > 1; }
    assert ValidHeader(rq);
    PurposeStated();
    assert Suited(rq, x.candidates[0]);
  }
}
