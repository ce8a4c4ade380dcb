/**
 The deterministic router: integer scores over a 128-bit product, and the choice
 of the best eligible candidate (router/deterministic/router.go).
 */
module Router {
  import opened Types
  import opened Policy
  import opened Routing

  /** bits.Div64 of the 128-bit product by a 64-bit divisor; no value when the machine division traps. */
  function ScalePermille(numerator: int, denominator: int): Option<int>
    requires 0 <= numerator <= MAX_UINT64 && 0 <= denominator <= MAX_UINT64
  {
    var product := numerator * PERMILLE;
    var hi, lo := product / TWO64, product % TWO64;
    if denominator == 0 || denominator <= hi then None
    else Some((hi * TWO64 + lo) / denominator)
  }

  lemma Halves(p: int)
    ensures p / TWO64 * TWO64 + p % TWO64 == p
  {
  }

  lemma QuotientRange(p: int, d: int)
    requires 0 <= p <= d * PERMILLE && d > 0
    ensures 0 <= p / d <= PERMILLE
  {
    assert p == p / d * d + p % d;
  }

  /** A share of a positive whole never traps and is between 0 and 1000 permille. */
  lemma ScaleInRange(numerator: int, denominator: int)
    requires 0 <= numerator <= denominator <= MAX_INT64 && denominator > 0
    ensures ScalePermille(numerator, denominator) == Some(numerator * PERMILLE / denominator)
    ensures Permille(numerator * PERMILLE / denominator)
  {
    var product := numerator * PERMILLE;
    Halves(product);
    assert product <= denominator * PERMILLE;
    assert product / TWO64 < denominator;
    QuotientRange(product, denominator);
  }

  function BoolPermille(b: bool): int {
    if b then PERMILLE else 0
  }

  function Locality(r: RoutingRequest, c: Candidate): int {
    BoolPermille(c.zone == r.sourceZone)
  }

  function Availability(c: Candidate): int {
    if c.availableSlots < 10 then c.availableSlots * 100 else PERMILLE
  }

  /** Queue wait plus latency, in the int64 arithmetic of time.Duration. */
  function TotalLatency(r: RoutingRequest, c: Candidate): int {
    Sub(Later(r.observedAt, c.availableAt), r.observedAt) + c.expectedLatency
  }

  /** The two divisions stay inside their windows for every candidate that passed the gates. */
  lemma EligibleFitsWindow(r: RoutingRequest, c: Candidate)
    requires ValidHeader(r) && ValidCandidate(c) && Eligible(r, c)
    requires r.budget.maxCost <= MAX_INT64
    ensures 0 <= c.expectedCost <= r.budget.maxCost
    ensures 0 <= TotalLatency(r, c) <= Sub(r.deadline, r.observedAt) <= MAX_INT64
    ensures Sub(r.deadline, r.observedAt) > 0
  {
    assert FitExclusion(r, c).None?;
  }

  function Weighted(s: Score, w: Weights): int {
    (s.quality * w.quality + s.locality * w.locality + s.availability * w.availability +
     s.cacheAffinity * w.cacheAffinity + s.cost * w.cost + s.latency * w.latency + s.inverseLoad * w.inverseLoad) / PERMILLE
  }

  predicate InScope(r: RoutingRequest, c: Candidate) {
    ValidHeader(r) && r.budget.maxCost <= MAX_INT64 && ValidCandidate(c) && Eligible(r, c)
  }

  lemma ProductRange(a: int, w: int)
    requires Permille(a) && 0 <= w
    ensures 0 <= a * w <= PERMILLE * w
  {
  }

  lemma WeightedInRange(s: Score, w: Weights)
    requires ValidScore(s.(total := 0)) && ValidWeights(w)
    ensures Permille(Weighted(s, w))
  {
    ProductRange(s.quality, w.quality);
    ProductRange(s.locality, w.locality);
    ProductRange(s.availability, w.availability);
    ProductRange(s.cacheAffinity, w.cacheAffinity);
    ProductRange(s.cost, w.cost);
    ProductRange(s.latency, w.latency);
    ProductRange(s.inverseLoad, w.inverseLoad);
  }

  /** scoreCandidate: every component and the weighted total are permille values. */
  function ScoreCandidate(r: RoutingRequest, c: Candidate): (s: Score)
    requires InScope(r, c)
    ensures ValidScore(s)
  {
    EligibleFitsWindow(r, c);
    var window := Sub(r.deadline, r.observedAt);
    ScaleInRange(TotalLatency(r, c), window);
    var cost :=
      if r.budget.maxCost > 0 then
        ScaleInRange(c.expectedCost, r.budget.maxCost);
        PERMILLE - ScalePermille(c.expectedCost, r.budget.maxCost).value
      else PERMILLE;
    var s := Score(c.qualityPermille, Locality(r, c), Availability(c), c.cacheAffinityPermille, cost,
                   PERMILLE - ScalePermille(TotalLatency(r, c), window).value, PERMILLE - c.loadPermille, 0);
    WeightedInRange(s, r.weights);
    s.(total := Weighted(s, r.weights))
  }

  // ---- What a score means ---------------------------------------------------------

  /** s is what is left of 1000 permille after part of whole, rounded up; all of it when there is no whole. */
  predicate Spares(s: int, part: int, whole: int) {
    if whole == 0 then s == PERMILLE else (PERMILLE - s) * whole <= part * PERMILLE < (PERMILLE - s + 1) * whole
  }

  /** How long the candidate keeps the request waiting: until it is free, and then its own latency. */
  function Waiting(r: RoutingRequest, c: Candidate): int {
    (if c.availableAt > r.observedAt then c.availableAt - r.observedAt else 0) + c.expectedLatency
  }

  /** The score reads every observation in its own direction: load, cost and waiting count against a candidate. */
  lemma ScoreReads(r: RoutingRequest, c: Candidate)
    requires InScope(r, c)
    ensures var s := ScoreCandidate(r, c);
      && s.quality == c.qualityPermille && s.cacheAffinity == c.cacheAffinityPermille && s.inverseLoad + c.loadPermille == PERMILLE
      && (s.locality == PERMILLE <==> c.zone == r.sourceZone) && (s.locality == 0 <==> c.zone != r.sourceZone)
      && (c.availableSlots >= 10 ==> s.availability == PERMILLE) && (c.availableSlots <= 10 ==> s.availability == 100 * c.availableSlots)
      && Spares(s.cost, c.expectedCost, r.budget.maxCost) && Spares(s.latency, Waiting(r, c), r.deadline - r.observedAt)
  {
    hide Weighted, ValidWeights, Blank, StringSet, Clean, TrustExclusion;
    EligibleFitsWindow(r, c);
    var window := Sub(r.deadline, r.observedAt);
    WindowExact(r, c);
    ScaleInRange(TotalLatency(r, c), window);
    SparesScaled(TotalLatency(r, c), window);
    if r.budget.maxCost > 0 {
      ScaleInRange(c.expectedCost, r.budget.maxCost);
      SparesScaled(c.expectedCost, r.budget.maxCost);
    }
  }

  lemma SparesScaled(part: int, whole: int)
    requires 0 <= part <= whole && whole > 0
    ensures Spares(PERMILLE - part * PERMILLE / whole, part, whole)
  {
    var p := part * PERMILLE;
    assert p == p / whole * whole + p % whole;
  }

  /** Within the window no difference of times saturates. */
  lemma WindowExact(r: RoutingRequest, c: Candidate)
    requires InScope(r, c)
    ensures Sub(r.deadline, r.observedAt) == r.deadline - r.observedAt && TotalLatency(r, c) == Waiting(r, c)
  {
    hide ValidWeights, Blank, StringSet, Clean, TrustExclusion;
    assert FitExclusion(r, c).None?;
  }

  function Share(weight: int, component: int): int {
    weight * component
  }

  function Sum(s: Score, w: Weights): int {
    Share(w.quality, s.quality) + Share(w.locality, s.locality) + Share(w.availability, s.availability) +
    Share(w.cacheAffinity, s.cacheAffinity) + Share(w.cost, s.cost) + Share(w.latency, s.latency) + Share(w.inverseLoad, s.inverseLoad)
  }

  /** The total is the weighted mean of the components, rounded down. */
  lemma TotalIsMean(r: RoutingRequest, c: Candidate)
    requires InScope(r, c)
    ensures var s := ScoreCandidate(r, c); s.total * PERMILLE <= Sum(s, r.weights) < (s.total + 1) * PERMILLE
  {
    hide ValidHeader, ValidCandidate, CandidateExclusion, ScalePermille, TotalLatency, Locality, Availability;
  }

  lemma LoneShare(s: Score, w: Weights)
    requires ValidWeights(w)
    ensures w.quality == PERMILLE ==> Sum(s, w) == s.quality * PERMILLE
    ensures w.locality == PERMILLE ==> Sum(s, w) == s.locality * PERMILLE
    ensures w.availability == PERMILLE ==> Sum(s, w) == s.availability * PERMILLE
    ensures w.cacheAffinity == PERMILLE ==> Sum(s, w) == s.cacheAffinity * PERMILLE
    ensures w.cost == PERMILLE ==> Sum(s, w) == s.cost * PERMILLE
    ensures w.latency == PERMILLE ==> Sum(s, w) == s.latency * PERMILLE
    ensures w.inverseLoad == PERMILLE ==> Sum(s, w) == s.inverseLoad * PERMILLE
  {
  }

  /** With all the weight on one observation, the total runs from 0 at its worst to 1000 at its best. */
  lemma LoneWeight(r: RoutingRequest, c: Candidate)
    requires InScope(r, c)
    ensures var w, total := r.weights, ScoreCandidate(r, c).total;
      && (w.quality == PERMILLE ==> total == c.qualityPermille)
      && (w.cacheAffinity == PERMILLE ==> total == c.cacheAffinityPermille)
      && (w.inverseLoad == PERMILLE ==> total == PERMILLE - c.loadPermille)
      && (w.locality == PERMILLE ==> total == if c.zone == r.sourceZone then PERMILLE else 0)
      && (w.availability == PERMILLE ==> (c.availableSlots >= 10 ==> total == PERMILLE) && (c.availableSlots <= 10 ==> total == 100 * c.availableSlots))
      && (w.cost == PERMILLE ==> (c.expectedCost == 0 ==> total == PERMILLE) && (c.expectedCost == r.budget.maxCost > 0 ==> total == 0))
      && (w.latency == PERMILLE ==> (Waiting(r, c) == 0 ==> total == PERMILLE) && (Waiting(r, c) == r.deadline - r.observedAt ==> total == 0))
  {
    hide ScoreCandidate, InScope, Waiting, Sum;
    ScoreReads(r, c);
    TotalIsMean(r, c);
    BudgetNatural(r, c);
    var s := ScoreCandidate(r, c);
    LoneShare(s, r.weights);
    SparesEnds(s.cost, c.expectedCost, r.budget.maxCost);
    SparesEnds(s.latency, Waiting(r, c), r.deadline - r.observedAt);
  }

  lemma SparesEnds(s: int, part: int, whole: int)
    requires Spares(s, part, whole) && whole >= 0
    ensures part == 0 ==> s == PERMILLE
    ensures part == whole > 0 ==> s == 0
  {
    if whole > 0 && part == whole {
      if s < 0 { ProductRises(whole, PERMILLE - s, PERMILLE + 1); }
      if s > 0 { ProductRises(whole, PERMILLE, PERMILLE - s + 1); }
    }
    if whole > 0 && part == 0 {
      if s < PERMILLE { ProductRises(whole, PERMILLE - s, 1); }
      if s > PERMILLE { ProductRises(whole, 0, PERMILLE - s + 1); }
    }
  }

  /** a is at least as good as b in everything the router observes. */
  predicate AtLeast(r: RoutingRequest, a: Candidate, b: Candidate) {
    && a.qualityPermille >= b.qualityPermille && a.cacheAffinityPermille >= b.cacheAffinityPermille
    && a.loadPermille <= b.loadPermille && a.availableSlots >= b.availableSlots && a.expectedCost <= b.expectedCost
    && Waiting(r, a) <= Waiting(r, b) && (b.zone == r.sourceZone ==> a.zone == r.sourceZone)
  }

  /** All the weight is on one observation, in which a is better by at least a permille. */
  predicate Excels(r: RoutingRequest, a: Candidate, b: Candidate) {
    var w := r.weights;
    || (w.quality == PERMILLE && a.qualityPermille > b.qualityPermille)
    || (w.locality == PERMILLE && a.zone == r.sourceZone != b.zone)
    || (w.availability == PERMILLE && a.availableSlots > b.availableSlots && b.availableSlots < 10)
    || (w.cacheAffinity == PERMILLE && a.cacheAffinityPermille > b.cacheAffinityPermille)
    || (w.inverseLoad == PERMILLE && a.loadPermille < b.loadPermille)
    || (w.cost == PERMILLE && (b.expectedCost - a.expectedCost) * PERMILLE >= r.budget.maxCost > 0)
    || (w.latency == PERMILLE && (Waiting(r, b) - Waiting(r, a)) * PERMILLE >= r.deadline - r.observedAt)
  }

  lemma SparesLess(s: int, part: int, t: int, more: int, whole: int)
    requires Spares(s, part, whole) && Spares(t, more, whole) && part <= more && whole >= 0
    ensures s >= t
    ensures whole > 0 && (more - part) * PERMILLE >= whole ==> s > t
  {
    if whole > 0 && s <= t { ProductRises(whole, PERMILLE - s, PERMILLE - t); }
  }

  /** Component by component, a better candidate scores at least as well. */
  lemma ComponentsRise(r: RoutingRequest, a: Candidate, b: Candidate)
    requires InScope(r, a) && InScope(r, b) && AtLeast(r, a, b)
    ensures var s, t, w := ScoreCandidate(r, a), ScoreCandidate(r, b), r.weights;
      && s.quality >= t.quality && s.locality >= t.locality && s.availability >= t.availability && s.cacheAffinity >= t.cacheAffinity
      && s.cost >= t.cost && s.latency >= t.latency && s.inverseLoad >= t.inverseLoad
      && (Excels(r, a, b) ==>
            || (w.quality == PERMILLE && s.quality > t.quality) || (w.locality == PERMILLE && s.locality > t.locality)
            || (w.availability == PERMILLE && s.availability > t.availability)
            || (w.cacheAffinity == PERMILLE && s.cacheAffinity > t.cacheAffinity) || (w.cost == PERMILLE && s.cost > t.cost)
            || (w.latency == PERMILLE && s.latency > t.latency) || (w.inverseLoad == PERMILLE && s.inverseLoad > t.inverseLoad))
  {
    hide ScoreCandidate, InScope, Spares, Waiting;
    ScoreReads(r, a);
    ScoreReads(r, b);
    BudgetNatural(r, a);
    var s, t := ScoreCandidate(r, a), ScoreCandidate(r, b);
    SparesLess(s.cost, a.expectedCost, t.cost, b.expectedCost, r.budget.maxCost);
    SparesLess(s.latency, Waiting(r, a), t.latency, Waiting(r, b), r.deadline - r.observedAt);
  }

  lemma BudgetNatural(r: RoutingRequest, c: Candidate)
    requires InScope(r, c)
    ensures r.budget.maxCost >= 0 && r.deadline > r.observedAt && ValidWeights(r.weights)
  {
    hide Blank, StringSet, Clean, CandidateExclusion;
  }

  lemma ProductRises(w: int, a: int, b: int)
    requires w >= 0 && a >= b
    ensures w * a >= w * b
  {
  }

  lemma SumRises(s: Score, t: Score, w: Weights)
    requires ValidWeights(w) && s.quality >= t.quality && s.locality >= t.locality && s.availability >= t.availability
    requires s.cacheAffinity >= t.cacheAffinity && s.cost >= t.cost && s.latency >= t.latency && s.inverseLoad >= t.inverseLoad
    ensures Sum(s, w) >= Sum(t, w)
    ensures || (w.quality == PERMILLE && s.quality > t.quality) || (w.locality == PERMILLE && s.locality > t.locality)
            || (w.availability == PERMILLE && s.availability > t.availability)
            || (w.cacheAffinity == PERMILLE && s.cacheAffinity > t.cacheAffinity) || (w.cost == PERMILLE && s.cost > t.cost)
            || (w.latency == PERMILLE && s.latency > t.latency) || (w.inverseLoad == PERMILLE && s.inverseLoad > t.inverseLoad)
            ==> Sum(s, w) >= Sum(t, w) + PERMILLE
  {
    ShareRises(w.quality, s.quality, t.quality);
    ShareRises(w.locality, s.locality, t.locality);
    ShareRises(w.availability, s.availability, t.availability);
    ShareRises(w.cacheAffinity, s.cacheAffinity, t.cacheAffinity);
    ShareRises(w.cost, s.cost, t.cost);
    ShareRises(w.latency, s.latency, t.latency);
    ShareRises(w.inverseLoad, s.inverseLoad, t.inverseLoad);
    hide Share;
  }

  lemma ShareRises(w: int, a: int, b: int)
    requires w >= 0 && a >= b
    ensures Share(w, a) >= Share(w, b)
    ensures w == PERMILLE && a > b ==> Share(w, a) >= Share(w, b) + PERMILLE
  {
  }

  /** No observation counts the wrong way: a candidate at least as good in all of them never totals less. */
  lemma TotalRises(r: RoutingRequest, a: Candidate, b: Candidate)
    requires InScope(r, a) && InScope(r, b) && AtLeast(r, a, b)
    ensures ScoreCandidate(r, a).total >= ScoreCandidate(r, b).total
    ensures Excels(r, a, b) ==> ScoreCandidate(r, a).total > ScoreCandidate(r, b).total
  {
    hide ScoreCandidate, InScope, AtLeast, Excels, Sum;
    ComponentsRise(r, a, b);
    TotalIsMean(r, a);
    TotalIsMean(r, b);
    BudgetNatural(r, a);
    SumRises(ScoreCandidate(r, a), ScoreCandidate(r, b), r.weights);
  }

  // ---- Selection ------------------------------------------------------------

  /** A request the router may be given: valid, with a cost budget of 64 bits. */
  predicate Routable(r: RoutingRequest) {
    ValidRequest(r) && r.budget.maxCost <= MAX_INT64
  }

  /** The total score of an eligible candidate. It reads the request header only, never the other candidates. */
  function Total(r: RoutingRequest, c: Candidate): int
    requires Routable(r) && ValidCandidate(c) && Eligible(r, c)
  {
    ScoreCandidate(r, c).total
  }

  /** c is ranked before d: a higher score, or the same score and a smaller identifier. */
  predicate Before(r: RoutingRequest, c: Candidate, d: Candidate)
    requires Routable(r) && ValidCandidate(c) && Eligible(r, c) && ValidCandidate(d) && Eligible(r, d)
  {
    Total(r, c) > Total(r, d) || (Total(r, c) == Total(r, d) && c.id < d.id)
  }

  /** c is an eligible candidate of r that is ranked before every other eligible one. */
  ghost predicate Best(r: RoutingRequest, c: Candidate)
    requires Routable(r)
  {
    && c in r.candidates && Eligible(r, c)
    && forall d :: d in r.candidates && Eligible(r, d) && d.id != c.id ==> Before(r, c, d)
  }

  /** The choice the router has to make: the best candidate, or none when none is eligible. */
  ghost predicate Chooses(r: RoutingRequest, selected: ID)
    requires Routable(r)
  {
    if selected == ZERO_ID then forall d :: d in r.candidates ==> !Eligible(r, d)
    else exists c :: Best(r, c) && c.id == selected
  }

  /** At most one choice satisfies the specification. */
  lemma ChoiceUnique(r: RoutingRequest, a: ID, b: ID)
    requires Routable(r) && Chooses(r, a) && Chooses(r, b)
    ensures a == b
  {
    hide ValidRequest, ValidCandidate, CandidateExclusion, ScoreCandidate;
  }

  /**
   The best candidate is not dominated: another eligible one that is at least as good in every observation does not excel,
   has the same total, and a later identifier.
   */
  lemma BestUndominated(r: RoutingRequest, a: Candidate, b: Candidate)
    requires Routable(r) && Best(r, b) && a in r.candidates && Eligible(r, a) && a.id != b.id && AtLeast(r, a, b)
    ensures !Excels(r, a, b) && Total(r, a) == Total(r, b) && b.id < a.id
  {
    hide CandidateExclusion, ScoreCandidate, AtLeast, Excels, ValidCandidate, ValidHeader, Blank;
    TotalRises(r, a, b);
  }

  /** The candidate of this identifier is never beaten on the only weight that counts by one that is nowhere worse. */
  ghost predicate Undominated(r: RoutingRequest, selected: ID) {
    forall a, b :: a in r.candidates && b in r.candidates && b.id == selected && Eligible(r, a) && AtLeast(r, a, b) ==> !Excels(r, a, b)
  }

  lemma ChosenUndominated(r: RoutingRequest, selected: ID)
    requires Routable(r) && Chooses(r, selected) && selected != ZERO_ID
    ensures Undominated(r, selected)
  {
    hide CandidateExclusion, ScoreCandidate, AtLeast, Excels, ValidCandidate, ValidHeader, Blank;
    var best :| Best(r, best) && best.id == selected;
    forall a, b | a in r.candidates && b in r.candidates && b.id == selected && Eligible(r, a) && AtLeast(r, a, b)
      ensures !Excels(r, a, b)
    {
      SameID(r, b, best);
      if a.id == b.id {
        SameID(r, a, b);
        NotBetterThanItself(r, a);
      } else {
        BestUndominated(r, a, b);
      }
    }
  }

  lemma SameID(r: RoutingRequest, a: Candidate, b: Candidate)
    requires ValidRequest(r) && a in r.candidates && b in r.candidates && a.id == b.id
    ensures a == b
  {
    hide ValidHeader, ValidCandidate, Blank;
  }

  lemma NotBetterThanItself(r: RoutingRequest, a: Candidate)
    requires ValidRequest(r)
    ensures !Excels(r, a, a)
  {
    hide ValidCandidate, Blank, StringSet, ValidWeights;
  }

  /** Two requests with the same header give every candidate the same gates and score. */
  predicate SameHeader(r: RoutingRequest, q: RoutingRequest) {
    q == r.(candidates := q.candidates)
  }

  lemma SameHeaderSameRank(r: RoutingRequest, q: RoutingRequest, c: Candidate)
    requires SameHeader(r, q)
    ensures Eligible(r, c) == Eligible(q, c)
    ensures Routable(r) && Routable(q) && ValidCandidate(c) && Eligible(r, c) ==> Total(r, c) == Total(q, c)
  {
    hide ScoreCandidate, ValidHeader, ValidCandidate, TrustExclusion, FitExclusion;
    SameHeaderSameGates(r, q, c);
    if Routable(r) && Routable(q) && ValidCandidate(c) && Eligible(r, c) { SameHeaderSameScore(r, q, c); }
  }

  lemma SameHeaderSameGates(r: RoutingRequest, q: RoutingRequest, c: Candidate)
    requires SameHeader(r, q)
    ensures TrustExclusion(r, c) == TrustExclusion(q, c) && FitExclusion(r, c) == FitExclusion(q, c)
  {
    hide FirstMissing, VerdictExclusion, Sub, Later;
  }

  lemma SameHeaderSameScore(r: RoutingRequest, q: RoutingRequest, c: Candidate)
    requires SameHeader(r, q) && InScope(r, c) && InScope(q, c)
    ensures ScoreCandidate(r, c) == ScoreCandidate(q, c)
  {
    hide InScope, ScalePermille, Weighted, Sub, Later;
  }

  /** Removing candidates, other than the chosen one, leaves the choice as it was. */
  lemma ChoiceSurvivesRemoval(r: RoutingRequest, q: RoutingRequest, selected: ID)
    requires Routable(r) && Routable(q) && SameHeader(r, q)
    requires forall c :: c in q.candidates ==> c in r.candidates
    requires forall c :: c in r.candidates && c.id == selected ==> c in q.candidates
    requires Chooses(r, selected)
    ensures Chooses(q, selected)
  {
    hide ValidHeader, ValidCandidate, CandidateExclusion, ScoreCandidate, Blank;
    forall c ensures Eligible(r, c) == Eligible(q, c)
             ensures ValidCandidate(c) && Eligible(r, c) ==> Total(r, c) == Total(q, c)
    {
      SameHeaderSameRank(r, q, c);
    }
    if selected != ZERO_ID {
      var c :| Best(r, c) && c.id == selected;
      assert Best(q, c);
    }
  }

  /** The order in which candidates are listed does not matter. */
  lemma ChoiceIgnoresOrder(r: RoutingRequest, q: RoutingRequest, selected: ID)
    requires Routable(r) && Routable(q) && SameHeader(r, q)
    requires multiset(r.candidates) == multiset(q.candidates)
    ensures Chooses(r, selected) <==> Chooses(q, selected)
  {
    forall c ensures c in r.candidates <==> c in q.candidates {
      assert c in multiset(r.candidates) <==> c in multiset(q.candidates);
    }
    if Chooses(r, selected) { ChoiceSurvivesRemoval(r, q, selected); }
    if Chooses(q, selected) { ChoiceSurvivesRemoval(q, r, selected); }
  }

  const ROUTER_NAME := "fabricrunner.deterministic"

  /** The best eligible candidate among the first k, or the zero identifier and score -1 for none. */
  ghost predicate Leads(r: RoutingRequest, k: nat, selected: ID, bestScore: int)
    requires Routable(r) && k <= |r.candidates|
  {
    if bestScore < 0 then bestScore == -1 && selected == ZERO_ID && forall i :: 0 <= i < k ==> !Eligible(r, r.candidates[i])
    else exists b: nat :: b < k && LeadsAt(r, k, b) && selected == r.candidates[b].id && bestScore == Total(r, r.candidates[b])
  }

  ghost predicate LeadsAt(r: RoutingRequest, k: nat, b: nat)
    requires Routable(r) && b < k <= |r.candidates|
  {
    && Eligible(r, r.candidates[b])
    && forall i :: 0 <= i < k && i != b && Eligible(r, r.candidates[i]) ==> Before(r, r.candidates[b], r.candidates[i])
  }

  lemma LeaderChosen(r: RoutingRequest, selected: ID, bestScore: int)
    requires Routable(r) && Leads(r, |r.candidates|, selected, bestScore)
    ensures Chooses(r, selected)
  {
    hide ValidHeader, ValidCandidate, CandidateExclusion, ScoreCandidate, Blank;
    if bestScore >= 0 {
      var b: nat :| b < |r.candidates| && LeadsAt(r, |r.candidates|, b) && selected == r.candidates[b].id;
      assert ValidCandidate(r.candidates[b]) ==> selected != ZERO_ID by { CandidateHasID(r.candidates[b]); }
      assert Best(r, r.candidates[b]);
    }
  }

  lemma CandidateHasID(c: Candidate)
    ensures ValidCandidate(c) ==> c.id != ZERO_ID
  {
  }

  /** One step of the selection loop keeps the leader. */
  lemma LeadStep(r: RoutingRequest, k: nat, selected: ID, bestScore: int, selected': ID, bestScore': int)
    requires Routable(r) && k < |r.candidates| && Leads(r, k, selected, bestScore)
    requires var c := r.candidates[k];
      if !Eligible(r, c) then selected' == selected && bestScore' == bestScore
      else if Total(r, c) > bestScore || (Total(r, c) == bestScore && c.id < selected)
      then selected' == c.id && bestScore' == Total(r, c)
      else selected' == selected && bestScore' == bestScore
    ensures Leads(r, k + 1, selected', bestScore')
  {
    hide ValidHeader, ValidCandidate, CandidateExclusion, Blank, TrustExclusion, FitExclusion;
    var c := r.candidates[k];
    if bestScore < 0 {
      if Eligible(r, c) {
        assert ValidScore(ScoreCandidate(r, c));
        assert LeadsAt(r, k + 1, k);
      }
    } else {
      var b: nat :| b < k && LeadsAt(r, k, b) && selected == r.candidates[b].id && bestScore == Total(r, r.candidates[b]);
      assert r.candidates[b].id != c.id;
      if Eligible(r, c) && selected' == c.id && bestScore' == Total(r, c) && (Total(r, c) > bestScore || c.id < selected) {
        assert LeadsAt(r, k + 1, k);
      } else {
        assert LeadsAt(r, k + 1, b);
      }
    }
  }

  /** An eligible candidate's assessment shows its score. */
  predicate Scored(r: RoutingRequest, c: Candidate, a: Assessment) {
    Routable(r) && ValidCandidate(c) && (Eligible(r, c) ==> a.score == Some(ScoreCandidate(r, c)))
  }

  predicate AllScored(r: RoutingRequest, assessments: seq<Assessment>) {
    |assessments| == |r.candidates| && forall i :: 0 <= i < |assessments| ==> Scored(r, r.candidates[i], assessments[i])
  }

  /** The assessment the router writes for one candidate. */
  function AssessmentOf(r: RoutingRequest, c: Candidate): (a: Assessment)
    requires Routable(r) && ValidCandidate(c)
    ensures Assesses(r, c, a)
    ensures a.eligible ==> a.score == Some(ScoreCandidate(r, c))
  {
    var e := CandidateExclusion(r, c);
    if e.Some? then Assessment(c.id, c.zone, c.model.ref, false, e, None)
    else Assessment(c.id, c.zone, c.model.ref, true, None, Some(ScoreCandidate(r, c)))
  }

  /** Route: assess every candidate in order, keep the best, and refuse when none is eligible. */
  method Route(r: RoutingRequest) returns (answer: RouterAnswer)
    requires r.budget.maxCost <= MAX_INT64
    ensures answer.RouterFailed? <==> !ValidRequest(r)
    ensures answer.Routed? ==> ValidDecision(answer.decision, r) && Chooses(r, answer.decision.selected)
    ensures answer.Routed? ==> answer.decision.selected != ZERO_ID && Undominated(r, answer.decision.selected)
    ensures answer.Routed? ==> AllScored(r, answer.decision.assessments)
    ensures answer.NoRoute? ==> ValidDecision(answer.refusal, r) && Chooses(r, ZERO_ID)
    ensures answer.NoRoute? <==> ValidRequest(r) && forall i :: 0 <= i < |r.candidates| ==> !Eligible(r, r.candidates[i])
    ensures !answer.NoRouter?
  {
    hide ValidHeader, ValidCandidate, CandidateExclusion, Blank, Assesses, ScoreCandidate, Undominated;
    var valid := ValidateRequest(r);
    if !valid { return RouterFailed; }
    var assessments: seq<Assessment> := [];
    var selected: ID, bestScore := ZERO_ID, -1;
    for k := 0 to |r.candidates|
      invariant |assessments| == k
      invariant forall i :: 0 <= i < k ==> Assesses(r, r.candidates[i], assessments[i])
      invariant forall i :: 0 <= i < k ==> Scored(r, r.candidates[i], assessments[i])
      invariant Leads(r, k, selected, bestScore)
    {
      var c := r.candidates[k];
      var a := AssessmentOf(r, c);
      ghost var selected', bestScore' := selected, bestScore;
      assessments := assessments + [a];
      assert a.eligible == Eligible(r, c) by { AssessmentEligible(r, c, a); }
      if a.eligible {
        var score := a.score.value;
        if score.total > bestScore || (score.total == bestScore && c.id < selected) {
          bestScore := score.total;
          selected := c.id;
        }
      }
      LeadStep(r, k, selected', bestScore', selected, bestScore);
    }
    LeaderChosen(r, selected, bestScore);
    var d := RoutingDecision(ROUTER_NAME, "1", r.workload, r.step, r.attempt, r.manifestSHA, r.sourceZone,
                             r.autonomous, r.egressPurpose, r.derivedFrom, r.observedAt, r.deadline, r.weights,
                             assessments, selected);
    EchoedName(d, r);
    if selected != ZERO_ID { ChosenUndominated(r, selected); }
    return if selected == ZERO_ID then NoRoute(d) else Routed(d);
  }

  lemma AssessmentEligible(r: RoutingRequest, c: Candidate, a: Assessment)
    requires Assesses(r, c, a)
    ensures a.eligible == Eligible(r, c)
    ensures a.eligible ==> a.score.Some?
  {
  }

  lemma EchoedName(d: RoutingDecision, r: RoutingRequest)
    requires d.router == ROUTER_NAME && d.version == "1"
    ensures !Blank(d.router) && !Blank(d.version)
  {
    assert !IsSpace(d.router[0]) && !IsSpace(d.version[0]);
  }
}
