/**
 Content manifests, policy scopes and verdicts, and the fail-closed evaluation of
 an untrusted policy (policy.go).
 */
module Policy {
  import opened Types

  // ---- The byte encoding that is hashed for a manifest ------------------

  /** The k low-order bytes of n, most significant first. */
  function BigEndian(n: nat, k: nat): (r: seq<Byte>)
    ensures |r| == k
  {
    if k == 0 then [] else BigEndian(n / 256, k - 1) + [(n % 256) as Byte]
  }

  function Pow256(k: nat): (r: nat)
    ensures r > 0
  {
    if k == 0 then 1 else 256 * Pow256(k - 1)
  }

  lemma {:induction false} BigEndianInjective(n: nat, m: nat, k: nat)
    requires n < Pow256(k) && m < Pow256(k)
    requires BigEndian(n, k) == BigEndian(m, k)
    ensures n == m
  {
    if k > 0 {
      var a, b := BigEndian(n / 256, k - 1), BigEndian(m / 256, k - 1);
      assert BigEndian(n, k)[..k - 1] == a && BigEndian(m, k)[..k - 1] == b;
      assert BigEndian(n, k)[k - 1] == (n % 256) as Byte && BigEndian(m, k)[k - 1] == (m % 256) as Byte;
      BigEndianInjective(n / 256, m / 256, k - 1);
    }
  }

  const TWO64: int := 0x1_0000_0000_0000_0000

  lemma Pow256Of8()
    ensures Pow256(8) == TWO64
  {
    assert Pow256(2) == 256 * 256;
    assert Pow256(4) == 256 * 256 * Pow256(2);
    assert Pow256(6) == 256 * 256 * Pow256(4);
    assert Pow256(8) == 256 * 256 * Pow256(6);
  }

  /** binary.BigEndian.PutUint64 of an int64 converted to uint64. */
  function Word(n: int): (r: seq<Byte>)
    ensures |r| == 8
  {
    BigEndian(n % TWO64, 8)
  }

  predicate IsInt64(n: int) {
    -MAX_INT64 - 1 <= n <= MAX_INT64
  }

  lemma ResidueInjective(n: int, m: int)
    requires IsInt64(n) && IsInt64(m) && n % TWO64 == m % TWO64
    ensures n == m
  {
    assert n % TWO64 == if n >= 0 then n else n + TWO64;
    assert m % TWO64 == if m >= 0 then m else m + TWO64;
  }

  lemma WordInjective(n: int, m: int)
    requires IsInt64(n) && IsInt64(m) && Word(n) == Word(m)
    ensures n == m
  {
    var a: nat, b: nat, k: nat := n % TWO64, m % TWO64, 8;
    assert a < Pow256(k) && b < Pow256(k) by { Pow256Of8(); }
    BigEndianInjective(a, b, k);
    ResidueInjective(n, m);
  }

  /** The UTF-8 form of one character. */
  function CharBytes(c: char): (r: seq<Byte>)
    ensures 1 <= |r| <= 4
  {
    var n := c as int;
    if n < 0x80 then [n as Byte]
    else if n < 0x800 then [(0xC0 + n / 64) as Byte, (0x80 + n % 64) as Byte]
    else if n < 0x10000 then
      [(0xE0 + n / 64 / 64) as Byte, (0x80 + n / 64 % 64) as Byte, (0x80 + n % 64) as Byte]
    else
      [(0xF0 + n / 64 / 64 / 64) as Byte, (0x80 + n / 64 / 64 % 64) as Byte, (0x80 + n / 64 % 64) as Byte,
       (0x80 + n % 64) as Byte]
  }

  /** The number a character's bytes stand for. */
  function CharCode(b: seq<Byte>): int
    requires 1 <= |b| <= 4
  {
    if |b| == 1 then b[0] as int
    else if |b| == 2 then (b[0] as int - 0xC0) * 64 + (b[1] as int - 0x80)
    else if |b| == 3 then ((b[0] as int - 0xE0) * 64 + (b[1] as int - 0x80)) * 64 + (b[2] as int - 0x80)
    else (((b[0] as int - 0xF0) * 64 + (b[1] as int - 0x80)) * 64 + (b[2] as int - 0x80)) * 64 + (b[3] as int - 0x80)
  }

  lemma CharRoundTrip(c: char)
    ensures CharCode(CharBytes(c)) == c as int
  {
  }

  /** The length of a character, read from its first byte. */
  function LengthFrom(b: Byte): nat {
    if b < 0x80 then 1 else if b < 0xE0 then 2 else if b < 0xF0 then 3 else 4
  }

  lemma CharLength(c: char)
    ensures |CharBytes(c)| == LengthFrom(CharBytes(c)[0])
  {
  }

  function TextBytes(s: string): seq<Byte> {
    if s == "" then [] else CharBytes(s[0]) + TextBytes(s[1..])
  }

  /** The first byte of a character tells its length, and its bytes tell the character. */
  lemma CharPrefixFree(c: char, d: char, x: seq<Byte>, y: seq<Byte>)
    requires CharBytes(c) + x == CharBytes(d) + y
    ensures c == d && x == y
  {
    CharLength(c);
    CharLength(d);
    PrefixFree(CharBytes(c), CharBytes(d), x, y);
    CharRoundTrip(c);
    CharRoundTrip(d);
  }

  lemma PrefixFree(a: seq<Byte>, b: seq<Byte>, x: seq<Byte>, y: seq<Byte>)
    requires a + x == b + y && a != [] && b != []
    requires a[0] == b[0] ==> |a| == |b|
    ensures a == b && x == y
  {
    assert (a + x)[0] == a[0] && (b + y)[0] == b[0];
    assert a == (a + x)[..|a|] && b == (b + y)[..|b|];
    assert x == (a + x)[|a|..] && y == (b + y)[|b|..];
  }

  lemma {:induction false} TextBytesInjective(s: string, t: string)
    requires TextBytes(s) == TextBytes(t)
    ensures s == t
  {
    if s != "" && t != "" {
      CharPrefixFree(s[0], t[0], TextBytes(s[1..]), TextBytes(t[1..]));
      TextBytesInjective(s[1..], t[1..]);
    }
  }

  /** writeDigestString: the length as eight bytes, then the bytes. */
  function Framed(s: string): seq<Byte> {
    Word(|TextBytes(s)|) + TextBytes(s)
  }

  lemma FramedPrefixFree(s: string, t: string, x: seq<Byte>, y: seq<Byte>)
    requires |TextBytes(s)| <= MAX_INT64 && |TextBytes(t)| <= MAX_INT64
    requires Framed(s) + x == Framed(t) + y
    ensures s == t && x == y
  {
    var a, b := TextBytes(s), TextBytes(t);
    assert (Framed(s) + x)[..8] == Word(|a|) && (Framed(t) + y)[..8] == Word(|b|);
    WordInjective(|a|, |b|);
    assert (Framed(s) + x)[8..8 + |a|] == a && (Framed(t) + y)[8..8 + |b|] == b;
    TextBytesInjective(s, t);
    assert x == (Framed(s) + x)[8 + |a|..] == (Framed(t) + y)[8 + |b|..] == y;
  }

  function ClassName(c: Class): string {
    match c
    case Unlabelled => ""
    case Public => "public"
    case Internal => "internal"
    case Confidential => "confidential"
    case Secret => "secret"
    case UnknownClass => "?"
  }

  lemma ClassNameInjective(c: Class, d: Class)
    requires ClassName(c) == ClassName(d)
    ensures c == d
  {
    assert |"public"| == 6 && |"internal"| == 8 && |"confidential"| == 12 && |"secret"| == 6;
    assert "public"[0] == 'p' && "secret"[0] == 's';
  }

  function SizeOnward(i: ContentItem): seq<Byte> {
    Word(i.size) + Framed(ClassName(i.level))
  }

  function MediaOnward(i: ContentItem): seq<Byte> {
    Framed(i.mediaType) + SizeOnward(i)
  }

  function ItemBytes(i: ContentItem): seq<Byte> {
    Framed(i.sha) + MediaOnward(i)
  }

  function ItemsBytes(items: seq<ContentItem>): seq<Byte> {
    if items == [] then [] else ItemBytes(items[0]) + ItemsBytes(items[1..])
  }

  /** The bytes of "fabricrunner.content-manifest.v1" and a zero byte. */
  const DOMAIN_TAG: seq<Byte> := [
    102, 97, 98, 114, 105, 99, 114, 117, 110, 110, 101, 114, 46, 99, 111, 110,
    116, 101, 110, 116, 45, 109, 97, 110, 105, 102, 101, 115, 116, 46, 118, 49, 0]

  function ManifestBytes(m: Manifest): seq<Byte> {
    DOMAIN_TAG + ItemsBytes(m.items)
  }

  /** What the Go types guarantee: string lengths and sizes are 64-bit integers. */
  predicate Representable(items: seq<ContentItem>) {
    forall i :: 0 <= i < |items| ==>
      IsInt64(items[i].size) && |TextBytes(items[i].sha)| <= MAX_INT64 && |TextBytes(items[i].mediaType)| <= MAX_INT64
  }

  lemma ClassNameShort(c: Class)
    ensures |TextBytes(ClassName(c))| <= 100
  {
    TextBytesLength(ClassName(c));
  }

  lemma {:induction false} TextBytesLength(s: string)
    ensures |TextBytes(s)| <= 4 * |s|
  {
    if s != "" { TextBytesLength(s[1..]); }
  }

  lemma Regroup(a: seq<Byte>, b: seq<Byte>, x: seq<Byte>)
    ensures (a + b) + x == a + (b + x)
  {
  }

  lemma SizePrefixFree(i: ContentItem, j: ContentItem, x: seq<Byte>, y: seq<Byte>)
    requires IsInt64(i.size) && IsInt64(j.size)
    requires SizeOnward(i) + x == SizeOnward(j) + y
    ensures i.size == j.size && i.level == j.level && x == y
  {
    var i3, j3 := Framed(ClassName(i.level)), Framed(ClassName(j.level));
    Regroup(Word(i.size), i3, x);
    Regroup(Word(j.size), j3, y);
    assert (Word(i.size) + (i3 + x))[..8] == Word(i.size) && (Word(j.size) + (j3 + y))[..8] == Word(j.size);
    assert (Word(i.size) + (i3 + x))[8..] == i3 + x && (Word(j.size) + (j3 + y))[8..] == j3 + y;
    WordInjective(i.size, j.size);
    ClassNameShort(i.level);
    ClassNameShort(j.level);
    FramedPrefixFree(ClassName(i.level), ClassName(j.level), x, y);
    ClassNameInjective(i.level, j.level);
  }

  lemma ItemPrefixFree(i: ContentItem, j: ContentItem, x: seq<Byte>, y: seq<Byte>)
    requires Representable([i]) && Representable([j])
    requires ItemBytes(i) + x == ItemBytes(j) + y
    ensures i == j && x == y
  {
    assert [i][0] == i && [j][0] == j;
    Regroup(Framed(i.sha), MediaOnward(i), x);
    Regroup(Framed(j.sha), MediaOnward(j), y);
    FramedPrefixFree(i.sha, j.sha, MediaOnward(i) + x, MediaOnward(j) + y);
    Regroup(Framed(i.mediaType), SizeOnward(i), x);
    Regroup(Framed(j.mediaType), SizeOnward(j), y);
    FramedPrefixFree(i.mediaType, j.mediaType, SizeOnward(i) + x, SizeOnward(j) + y);
    SizePrefixFree(i, j, x, y);
  }

  lemma {:induction false} ItemsBytesInjective(a: seq<ContentItem>, b: seq<ContentItem>)
    requires Representable(a) && Representable(b)
    requires ItemsBytes(a) == ItemsBytes(b)
    ensures a == b
  {
    if a != [] && b != [] {
      assert Representable([a[0]]) && Representable([b[0]]);
      ItemPrefixFree(a[0], b[0], ItemsBytes(a[1..]), ItemsBytes(b[1..]));
      ItemsBytesInjective(a[1..], b[1..]);
    }
  }

  /** Equal hashed bytes mean equal manifests: items, order, sizes and classifications. */
  lemma ManifestEncodingUnique(a: Manifest, b: Manifest)
    requires Representable(a.items) && Representable(b.items)
    ensures ManifestBytes(a) == ManifestBytes(b) <==> a == b
  {
    if ManifestBytes(a) == ManifestBytes(b) {
      var t := DOMAIN_TAG;
      assert ManifestBytes(a)[|t|..] == ItemsBytes(a.items) && ManifestBytes(b)[|t|..] == ItemsBytes(b.items);
      ItemsBytesInjective(a.items, b.items);
    }
  }

  function Digest(env: Env, m: Manifest): string {
    env.sha256(ManifestBytes(m))
  }

  /** Different manifests with one digest would be a SHA-256 collision. */
  lemma DigestPinsManifest(env: Env, a: Manifest, b: Manifest)
    requires Representable(a.items) && Representable(b.items)
    requires Digest(env, a) == Digest(env, b)
    ensures a == b || exists x, y :: x != y && env.sha256(x) == env.sha256(y)
  {
    ManifestEncodingUnique(a, b);
    if a != b {
      assert ManifestBytes(a) != ManifestBytes(b) && env.sha256(ManifestBytes(a)) == env.sha256(ManifestBytes(b));
    }
  }

  lemma {:induction false} ItemsBytesSnoc(items: seq<ContentItem>, i: ContentItem)
    ensures ItemsBytes(items + [i]) == ItemsBytes(items) + ItemBytes(i)
  {
    if items == [] {
      assert [] + [i] == [i] && ItemsBytes([i][1..]) == [];
    } else {
      assert (items + [i])[1..] == items[1..] + [i];
      ItemsBytesSnoc(items[1..], i);
    }
  }

  lemma ItemWritten(before: seq<Byte>, i: ContentItem)
    ensures before + Framed(i.sha) + Framed(i.mediaType) + Word(i.size) + Framed(ClassName(i.level)) == before + ItemBytes(i)
  {
    var a, b, c, d := Framed(i.sha), Framed(i.mediaType), Word(i.size), Framed(ClassName(i.level));
    assert before + a + b + c + d == before + (a + (b + (c + d)));
  }

  /** digestUnchecked: the bytes given to the hash, written field by field. */
  method WriteManifest(m: Manifest) returns (bytes: seq<Byte>)
    ensures bytes == ManifestBytes(m)
  {
    hide Framed, Word, ItemBytes;
    var tag := DOMAIN_TAG;
    bytes := tag;
    for k := 0 to |m.items|
      invariant bytes == tag + ItemsBytes(m.items[..k])
    {
      var item := m.items[k];
      ItemWritten(bytes, item);
      ItemsBytesSnoc(m.items[..k], item);
      assert m.items[..k + 1] == m.items[..k] + [item];
      Regroup(tag, ItemsBytes(m.items[..k]), ItemBytes(item));
      bytes := bytes + Framed(item.sha) + Framed(item.mediaType) + Word(item.size) + Framed(ClassName(item.level));
    }
    assert m.items[..|m.items|] == m.items;
  }

  // ---- Validation and classification ------------------------------------

  predicate ValidItem(i: ContentItem) {
    ValidSHA(i.sha) && !Blank(i.mediaType) && i.size >= 0 && i.level != UnknownClass
  }

  predicate ValidManifest(m: Manifest) {
    && m.items != []
    && (forall i :: 0 <= i < |m.items| ==> ValidItem(m.items[i]))
    && (forall i, j :: 0 <= i < j < |m.items| ==> m.items[i].sha != m.items[j].sha)
  }

  function ItemClass(i: ContentItem): Class {
    if i.level == Unlabelled then Confidential else i.level
  }

  /** c is the highest classification of the items, and public for none. */
  predicate HighestOf(items: seq<ContentItem>, c: Class) {
    && (c == Public || exists i :: 0 <= i < |items| && ItemClass(items[i]) == c)
    && (forall i :: 0 <= i < |items| ==> Rank(ItemClass(items[i])) <= Rank(c))
  }

  function ManifestClass(items: seq<ContentItem>): (c: Class)
    ensures HighestOf(items, c)
  {
    if items == [] then Public
    else
      var rest := ManifestClass(items[..|items| - 1]);
      var last := ItemClass(items[|items| - 1]);
      if Rank(last) > Rank(rest) then last else rest
  }

  /** EffectiveClassification: no result for an invalid manifest, otherwise the highest level. */
  method EffectiveClassification(m: Manifest) returns (c: Option<Class>)
    ensures c.Some? <==> ValidManifest(m)
    ensures c.Some? ==> HighestOf(m.items, c.value) && c.value == ManifestClass(m.items)
  {
    if !ValidManifest(m) { return None; }
    var result := Public;
    for k := 0 to |m.items|
      invariant result == ManifestClass(m.items[..k])
    {
      assert m.items[..k + 1][..k] == m.items[..k];
      var class_ := ItemClass(m.items[k]);
      if Rank(class_) > Rank(result) { result := class_; }
    }
    assert m.items[..|m.items|] == m.items;
    c := Some(result);
  }

  predicate ValidTarget(t: Target) {
    ValidZone(t.zone) &&
    match t.kind
    case ModelTarget => t.model.Some? && ValidModel(t.model.value) && t.toolName == ""
    case ToolTarget => !Blank(t.toolName) && t.model.None?
    case UnknownTarget => false
  }

  predicate KindsAgree(k: StepKind, t: TargetKind) {
    (k == ModelTurn && t == ModelTarget) || (k == ToolStep && t == ToolTarget)
  }

  predicate ValidScope(s: Scope) {
    s.workload != ZERO_ID && s.step != ZERO_ID &&
    match s.kind
    case ExecutionScope =>
      && s.attempt != ZERO_ID && s.target.Some? && ValidTarget(s.target.value) && ValidStepKind(s.stepKind)
      && KindsAgree(s.stepKind, s.target.value.kind)
      && s.source == NoZone && s.destination == NoZone && s.purpose == "" && s.derivedFrom == ""
    case EgressScope =>
      && s.attempt == ZERO_ID && s.stepKind == NoStepKind && !s.autonomous && s.target.None?
      && ValidZone(s.source) && ValidZone(s.destination) && !Blank(s.purpose)
      && (s.derivedFrom != "" ==> ValidSHA(s.derivedFrom))
    case UnknownScope => false
  }

  function SameTarget(a: Target, b: Target): bool {
    if a.kind != b.kind || a.zone != b.zone || a.toolName != b.toolName || a.sandbox != b.sandbox then false
    else if a.model.None? || b.model.None? then a.model.None? && b.model.None?
    else a.model.value == b.model.value
  }

  /** PolicyScope.Equal leaves out no field. */
  function SameScope(a: Scope, b: Scope): (r: bool)
    ensures r <==> a == b
  {
    if a.kind != b.kind || a.workload != b.workload || a.step != b.step || a.attempt != b.attempt ||
       a.stepKind != b.stepKind || a.autonomous != b.autonomous || a.source != b.source ||
       a.destination != b.destination || a.purpose != b.purpose || a.derivedFrom != b.derivedFrom then false
    else if a.target.None? || b.target.None? then a.target.None? && b.target.None?
    else SameTarget(a.target.value, b.target.value)
  }

  predicate ValidVerdict(v: Verdict) {
    var instructed := v.action == TransformAction || v.action == Redact;
    && !Blank(v.policy) && !Blank(v.version) && !Blank(v.rule) && v.action != UnknownAction && !Blank(v.reason)
    && ValidSHA(v.manifestSHA) && ValidScope(v.scope)
    && (instructed ==> !Blank(v.transformation))
    && (!instructed ==> v.transformation == "")
  }

  // ---- Fail-closed evaluation -------------------------------------------

  datatype ExecutionRequest = ExecutionRequest(
    workload: ID, step: ID, attempt: ID, stepKind: StepKind, target: Target, manifest: Manifest, autonomous: bool)

  datatype EgressRequest = EgressRequest(
    workload: ID, step: ID, source: Zone, destination: Zone, manifest: Manifest, purpose: string, derivedFrom: string)

  predicate ValidExecutionRequest(r: ExecutionRequest) {
    && r.workload != ZERO_ID && r.step != ZERO_ID && r.attempt != ZERO_ID && ValidStepKind(r.stepKind)
    && ValidTarget(r.target) && KindsAgree(r.stepKind, r.target.kind) && ValidManifest(r.manifest)
  }

  predicate ValidEgressRequest(r: EgressRequest) {
    && r.workload != ZERO_ID && r.step != ZERO_ID && ValidZone(r.source) && ValidZone(r.destination)
    && ValidManifest(r.manifest) && !Blank(r.purpose) && (r.derivedFrom != "" ==> ValidSHA(r.derivedFrom))
  }

  function ScopeForExecution(r: ExecutionRequest): Scope {
    Scope(ExecutionScope, r.workload, r.step, r.attempt, r.stepKind, r.autonomous, Some(r.target),
          NoZone, NoZone, "", "")
  }

  function ScopeForEgress(r: EgressRequest): Scope {
    Scope(EgressScope, r.workload, r.step, ZERO_ID, NoStepKind, false, None,
          r.source, r.destination, r.purpose, r.derivedFrom)
  }

  /** What an untrusted policy may do when asked. */
  datatype Answer = NoPolicy | Failed | Answered(verdict: Verdict)

  function FailClosed(rule: string, digest: string, scope: Scope): Verdict {
    Verdict("fabricrunner.fail-closed", "1", rule, Deny,
            "policy evaluation did not produce a valid authorization", digest, scope, "")
  }

  /** Accepts an answer only if it is valid and bound to this manifest and scope. */
  function Bound(answer: Answer, digest: string, scope: Scope, kind: string): (v: Verdict)
    ensures v.manifestSHA == digest && v.scope == scope
    ensures v.action == Allow ==> answer == Answered(v) && ValidVerdict(v)
  {
    match answer
    case NoPolicy => FailClosed(kind + ".policy.missing", digest, scope)
    case Failed => FailClosed(kind + ".policy.error", digest, scope)
    case Answered(v) =>
      if !ValidVerdict(v) then FailClosed(kind + ".verdict.invalid", digest, scope)
      else if v.manifestSHA != "" && v.manifestSHA != digest then FailClosed(kind + ".verdict.manifest-mismatch", digest, scope)
      else if !SameScope(v.scope, scope) then FailClosed(kind + ".verdict.scope-mismatch", digest, scope)
      else v
  }

  function EvaluateExecution(env: Env, answer: Answer, r: ExecutionRequest): (v: Verdict)
    ensures v.manifestSHA == Digest(env, r.manifest) && v.scope == ScopeForExecution(r)
    ensures v.action == Allow ==> answer == Answered(v) && ValidVerdict(v) && ValidExecutionRequest(r)
    ensures v.action == Allow && r.target.kind == ModelTarget ==> ManifestClass(r.manifest.items) != Secret
  {
    var digest := Digest(env, r.manifest);
    var scope := ScopeForExecution(r);
    if !ValidExecutionRequest(r) then FailClosed("execution.request.invalid", digest, scope)
    else if r.target.kind == ModelTarget && ManifestClass(r.manifest.items) == Secret then
      FailClosed("execution.secret-model.denied", digest, scope)
    else Bound(answer, digest, scope, "execution")
  }

  function EvaluateEgress(env: Env, answer: Answer, r: EgressRequest): (v: Verdict)
    ensures v.manifestSHA == Digest(env, r.manifest) && v.scope == ScopeForEgress(r)
    ensures v.action == Allow ==> answer == Answered(v) && ValidVerdict(v) && ValidEgressRequest(r)
  {
    var digest := Digest(env, r.manifest);
    var scope := ScopeForEgress(r);
    if !ValidEgressRequest(r) then FailClosed("egress.request.invalid", digest, scope)
    else Bound(answer, digest, scope, "egress")
  }
}
