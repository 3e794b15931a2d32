/** The SuspiciousDomain document: its persisted shape, the schema's domain
    pattern and validators, the risk-score recomputation and the
    indicator append. The stored form is the value `DomainDoc`; the
    in-memory Mongoose document is the class `SuspiciousDomain`, hydrated
    from a `DomainDoc`, changed in place by its methods and saved back as
    `Doc()`. Times are integer milliseconds. */
module DomainModel {
  import opened Wrappers
  import opened JsStrings
  import opened RiskLevels

  const DAY_MS: int := 1000 * 60 * 60 * 24

  datatype IndicatorType =
    | Typosquatting | SuspiciousTld | RecentRegistration | NoSsl
    | SuspiciousContent | BlacklistedIp | OtherIndicator

  /** A piece of evidence; `confidence` is None when the field is absent. */
  datatype Indicator = Indicator(kind: IndicatorType, description: string, confidence: Option<int>)

  datatype Category = Phishing | Malware | Spam | Suspicious | Unknown

  datatype DomainSource = Manual | Osint | Api | Heuristic

  datatype SslInfo = SslInfo(hasSSL: bool, isExpired: bool)

  datatype Whois = Whois(registrationDate: Option<int>)

  datatype Reputation = Reputation(totalChecks: int, positiveChecks: int, negativeChecks: int)

  datatype DomainDoc = DomainDoc(
    domain: string,
    riskScore: int,
    riskLevel: RiskLevel,
    category: Category,
    source: DomainSource,
    firstSeen: int,
    lastSeen: int,
    isActive: bool,
    indicators: seq<Indicator>,
    whois: Whois,
    sslInfo: SslInfo,
    reputation: Reputation)

  // ---------------------------------------------------------------- the domain path

  /** The `lowercase` and `trim` setters of the `domain` path; Mongoose applies
      them to the stored value and to query values alike, so this is the key
      under which a name is stored and looked up. */
  function DomainSetter(name: string): string {
    Trim(ToLower(name))
  }

  /** `[a-zA-Z0-9][a-zA-Z0-9-]{1,61}[a-zA-Z0-9]`: 3 to 63 characters, alphanumeric
      at both ends, alphanumeric or `-` inside. */
  predicate IsLabel(l: string) {
    3 <= |l| <= 63 && IsAlnum(l[0]) && IsAlnum(l[|l| - 1])
    && forall i :: 1 <= i < |l| - 1 ==> IsAlnum(l[i]) || l[i] == '-'
  }

  /** `[a-zA-Z]{2,}`. */
  predicate IsTld(t: string) {
    |t| >= 2 && forall i :: 0 <= i < |t| ==> IsAlpha(t[i])
  }

  /** The anchored pattern of the `domain` path: a label, one `.`, a top-level
      domain, read as "some split of the string fits". */
  ghost predicate MatchesDomainPattern(s: string) {
    exists k :: 0 <= k < |s| && s[k] == '.' && IsLabel(s[..k]) && IsTld(s[k + 1..])
  }

  /** The pattern, decided by splitting at the first `.`. */
  predicate IsValidDomain(s: string) {
    var k := IndexOf(s, '.');
    k >= 0 && IsLabel(s[..k]) && IsTld(s[k + 1..])
  }

  /** A label holds no `.`. */
  lemma LabelHasNoDot(l: string)
    requires IsLabel(l)
    ensures '.' !in l
  {
    forall i | 0 <= i < |l| ensures l[i] != '.' {
      assert i == 0 || i == |l| - 1 || IsAlnum(l[i]) || l[i] == '-';
    }
  }

  /** Splitting at the first `.` decides the pattern exactly. */
  lemma ValidDomainIff(s: string)
    ensures IsValidDomain(s) <==> MatchesDomainPattern(s)
  {
    if MatchesDomainPattern(s) {
      var k :| 0 <= k < |s| && s[k] == '.' && IsLabel(s[..k]) && IsTld(s[k + 1..]);
      LabelHasNoDot(s[..k]);
      ValidDomainAt(s, k);
    }
    if IsValidDomain(s) {
      var j := IndexOf(s, '.');
      assert s[j] == '.' && IsLabel(s[..j]) && IsTld(s[j + 1..]);
    }
  }

  /** The pattern admits no subdomain: a valid name has exactly one `.`. */
  lemma ValidDomainHasOneDot(s: string, i: int)
    requires IsValidDomain(s)
    requires 0 <= i < |s| && s[i] == '.'
    ensures i == IndexOf(s, '.')
  {
    var k := IndexOf(s, '.');
  }

  /** A name is valid when its first `.` splits it into a label and a top-level domain. */
  lemma ValidDomainAt(s: string, k: int)
    requires 0 <= k < |s| && s[k] == '.' && '.' !in s[..k]
    requires IsLabel(s[..k]) && IsTld(s[k + 1..])
    ensures IsValidDomain(s)
  {
    assert IndexOf(s, '.') == k;
  }

  lemma ValidDomainExample()
    ensures IsValidDomain("evil-test123.tk")
  {
    var s := "evil-test123.tk";
    var lbl := "evil-test123";
    assert IsLabel(lbl) by {
      forall i | 1 <= i < |lbl| - 1 ensures IsAlnum(lbl[i]) || lbl[i] == '-' {}
    }
    assert s[..12] == lbl && s[13..] == "tk";
    ValidDomainAt(s, 12);
  }

  /** A name is invalid when its first `.` does not split it into a label and a
      top-level domain. */
  lemma InvalidDomainAt(s: string, k: int)
    requires 0 <= k < |s| && s[k] == '.' && '.' !in s[..k]
    requires !IsLabel(s[..k]) || !IsTld(s[k + 1..])
    ensures !IsValidDomain(s)
  {
    assert IndexOf(s, '.') == k;
  }

  /** A subdomain fails the pattern. */
  lemma SubdomainExample()
    ensures !IsValidDomain("login.example.com")
  {
    var s := "login.example.com";
    assert s[..5] == "login" && s[6..] == "example.com";
    assert !IsAlpha("example.com"[7]);
    InvalidDomainAt(s, 5);
  }

  /** A label shorter than three characters fails the pattern. */
  lemma ShortLabelExample()
    ensures !IsValidDomain("a.tk")
  {
    var s := "a.tk";
    assert s[..1] == "a";
    InvalidDomainAt(s, 1);
  }

  // ---------------------------------------------------------------- validation

  /** The fields that fail the schema's validators when the document is saved:
      the domain pattern (which also rejects the empty name the `required`
      validator refuses), the 0..100 range of `riskScore`, and the 0..100 range
      of every indicator confidence that is present. */
  function Violations(d: DomainDoc): (v: seq<string>)
    ensures v == [] <==> IsValidDoc(d)
  {
    (if IsValidDomain(d.domain) then [] else ["domain"])
    + (if 0 <= d.riskScore <= 100 then [] else ["riskScore"])
    + (if ConfidencesInRange(d.indicators) then [] else ["indicators.confidence"])
  }

  predicate ConfidencesInRange(inds: seq<Indicator>) {
    forall i :: 0 <= i < |inds| ==> inds[i].confidence.None? || 0 <= inds[i].confidence.value <= 100
  }

  predicate IsValidDoc(d: DomainDoc) {
    IsValidDomain(d.domain) && 0 <= d.riskScore <= 100 && ConfidencesInRange(d.indicators)
  }

  /** The invariant the rescoring establishes: the score is in range and the
      level is its bucket. */
  predicate Consistent(d: DomainDoc) {
    0 <= d.riskScore <= 100 && d.riskLevel == Bucket(d.riskScore)
  }

  /** A document as `new SuspiciousDomain({domain, category, source, indicators})`
      builds it: the schema defaults (score 50, level medium, no SSL, not
      expired, no registration date, active, zero reputation, both timestamps
      now) and the domain setter applied to the name. */
  function NewDomainDoc(name: string, category: Category, source: DomainSource,
                        indicators: seq<Indicator>, now: int): DomainDoc
  {
    DomainDoc(DomainSetter(name), 50, Medium, category, source, now, now, true, indicators,
              Whois(None), SslInfo(false, false), Reputation(0, 0, 0))
  }

  // ---------------------------------------------------------------- risk score

  /** `indicator.confidence || 50`: an absent or zero confidence counts as 50. */
  function EffectiveConfidence(ind: Indicator): int {
    match ind.confidence
    case None => 50
    case Some(c) => if c == 0 then 50 else c
  }

  /** The indicator total of the `forEach` loop, built from the left. */
  function ConfidenceSum(inds: seq<Indicator>): int
    decreases |inds|
  {
    if inds == [] then 0
    else ConfidenceSum(inds[..|inds| - 1]) + EffectiveConfidence(inds[|inds| - 1])
  }

  lemma {:induction false} ConfidenceSumConcat(a: seq<Indicator>, b: seq<Indicator>)
    ensures ConfidenceSum(a + b) == ConfidenceSum(a) + ConfidenceSum(b)
    decreases |b|
  {
    if b == [] {
      assert a + b == a;
    } else {
      var b' := b[..|b| - 1];
      assert (a + b)[..|a + b| - 1] == a + b';
      assert (a + b)[|a + b| - 1] == b[|b| - 1];
      ConfidenceSumConcat(a, b');
    }
  }

  /** Every confidence the schema admits (absent, or 0..100) contributes
      between 1 and 100. */
  lemma {:induction false} ConfidenceSumBounds(inds: seq<Indicator>)
    requires ConfidencesInRange(inds)
    ensures |inds| <= ConfidenceSum(inds) <= 100 * |inds|
    decreases |inds|
  {
    if inds != [] {
      var front := inds[..|inds| - 1];
      assert ConfidencesInRange(front) by {
        forall i | 0 <= i < |front| ensures front[i] == inds[i] {}
      }
      ConfidenceSumBounds(front);
    }
  }

  /** The floor each category imposes on the indicator total. */
  function CategoryFloor(c: Category): int {
    match c
    case Phishing => 90
    case Malware => 95
    case Spam => 60
    case Suspicious => 40
    case Unknown => 30
  }

  /** No SSL adds 20; an expired certificate adds 15. */
  function SslAdjustment(ssl: SslInfo): int {
    (if !ssl.hasSSL then 20 else 0) + (if ssl.isExpired then 15 else 0)
  }

  /** A registration less than 30 days old adds 25, otherwise less than 90 days
      adds 15; ages are compared in whole milliseconds. */
  function RegistrationAdjustment(whois: Whois, now: int): int {
    match whois.registrationDate
    case None => 0
    case Some(registered) =>
      if now - registered < 30 * DAY_MS then 25
      else if now - registered < 90 * DAY_MS then 15
      else 0
  }

  /** The score before clamping. */
  function UnclampedRisk(d: DomainDoc, now: int): int {
    Max(ConfidenceSum(d.indicators), CategoryFloor(d.category))
    + SslAdjustment(d.sslInfo) + RegistrationAdjustment(d.whois, now)
  }

  /** The document after `updateRiskScore`: score and level recomputed, every
      other field as it was. */
  function Rescore(d: DomainDoc, now: int): (r: DomainDoc)
    ensures Consistent(r)
    ensures r.riskScore >= Min(100, CategoryFloor(d.category))
    ensures r.riskScore >= Min(100, ConfidenceSum(d.indicators))
    ensures r.(riskScore := d.riskScore, riskLevel := d.riskLevel) == d
  {
    var score := Clamp100(UnclampedRisk(d, now));
    d.(riskScore := score, riskLevel := Bucket(score))
  }

  /** Each adjustment contributes exactly its listed amount. */
  lemma AdjustmentValues(ssl: SslInfo, whois: Whois, now: int)
    ensures SslAdjustment(ssl) == 20 * (if ssl.hasSSL then 0 else 1) + 15 * (if ssl.isExpired then 1 else 0)
    ensures whois.registrationDate.None? ==> RegistrationAdjustment(whois, now) == 0
    ensures whois.registrationDate.Some? && now - whois.registrationDate.value < 2592000000
            ==> RegistrationAdjustment(whois, now) == 25
    ensures whois.registrationDate.Some? && 2592000000 <= now - whois.registrationDate.value < 7776000000
            ==> RegistrationAdjustment(whois, now) == 15
    ensures whois.registrationDate.Some? && now - whois.registrationDate.value >= 7776000000
            ==> RegistrationAdjustment(whois, now) == 0
  {
  }

  /** A malware record with no indicators and no SSL scores 100, critical,
      whatever its other metadata. */
  lemma MalwareWithoutSslIsCritical(d: DomainDoc, now: int)
    requires d.category == Malware && d.indicators == [] && !d.sslInfo.hasSSL
    ensures Rescore(d, now).riskScore == 100
    ensures Rescore(d, now).riskLevel == Critical
  {
    assert ConfidenceSum(d.indicators) == 0;
    assert UnclampedRisk(d, now) >= 115;
  }

  /** Appending an indicator admitted by the schema never lowers the score. */
  lemma AppendNeverLowersScore(d: DomainDoc, ind: Indicator, now: int)
    requires ind.confidence.None? || ind.confidence.value >= 0
    ensures Rescore(d.(indicators := d.indicators + [ind]), now).riskScore >= Rescore(d, now).riskScore
  {
    var d' := d.(indicators := d.indicators + [ind]);
    ConfidenceSumConcat(d.indicators, [ind]);
    assert ConfidenceSum([ind]) == EffectiveConfidence(ind) by {
      assert [ind][..0] == [];
    }
    assert UnclampedRisk(d', now) >= UnclampedRisk(d, now);
  }

  // ---------------------------------------------------------------- reputation

  /** The `reputationPercentage` virtual: 0 when nothing was checked, otherwise
      the share of positive checks in percent, rounded half up. The rounding is
      done in exact arithmetic. */
  function ReputationPercentage(rep: Reputation): (pct: int)
    ensures rep.totalChecks == 0 ==> pct == 0
    ensures rep.totalChecks > 0 ==>
      2 * rep.totalChecks * pct - rep.totalChecks <= 200 * rep.positiveChecks < 2 * rep.totalChecks * pct + rep.totalChecks
  {
    if rep.totalChecks == 0 then 0
    else
      var n := if rep.totalChecks > 0 then 100 * rep.positiveChecks else -100 * rep.positiveChecks;
      var t := if rep.totalChecks > 0 then rep.totalChecks else -rep.totalChecks;
      RoundedQuotient(n, t)
  }

  /** floor(n / t + 1/2) for a positive `t`. */
  function RoundedQuotient(n: int, t: int): (q: int)
    requires t > 0
    ensures 2 * t * q - t <= 2 * n < 2 * t * q + t
  {
    var q := (2 * n + t) / (2 * t);
    assert 2 * t * q <= 2 * n + t < 2 * t * q + 2 * t;
    q
  }

  // ---------------------------------------------------------------- updates

  /** The fields a request body may overwrite through `Object.assign`; None
      is an absent field. The name is not among them (see the store's keying). */
  datatype DomainPatch = DomainPatch(
    category: Option<Category>,
    indicators: Option<seq<Indicator>>,
    whois: Option<Whois>,
    sslInfo: Option<SslInfo>,
    isActive: Option<bool>)

  /** The document after a patch: present fields replaced, all others kept. */
  function Patched(d: DomainDoc, p: DomainPatch): (r: DomainDoc)
    ensures p.category.Some? ==> r.category == p.category.value
    ensures p.category.None? ==> r.category == d.category
    ensures p.indicators.Some? ==> r.indicators == p.indicators.value
    ensures p.indicators.None? ==> r.indicators == d.indicators
    ensures p.whois.Some? ==> r.whois == p.whois.value
    ensures p.whois.None? ==> r.whois == d.whois
    ensures p.sslInfo.Some? ==> r.sslInfo == p.sslInfo.value
    ensures p.sslInfo.None? ==> r.sslInfo == d.sslInfo
    ensures p.isActive.Some? ==> r.isActive == p.isActive.value
    ensures p.isActive.None? ==> r.isActive == d.isActive
    ensures r.domain == d.domain && r.source == d.source
    ensures r.riskScore == d.riskScore && r.riskLevel == d.riskLevel
    ensures r.firstSeen == d.firstSeen && r.lastSeen == d.lastSeen && r.reputation == d.reputation
    ensures p == DomainPatch(None, None, None, None, None) ==> r == d
  {
    d.(category := p.category.GetOr(d.category),
       indicators := p.indicators.GetOr(d.indicators),
       whois := p.whois.GetOr(d.whois),
       sslInfo := p.sslInfo.GetOr(d.sslInfo),
       isActive := p.isActive.GetOr(d.isActive))
  }

  // ---------------------------------------------------------------- the document

  class SuspiciousDomain {
    var domain: string
    var riskScore: int
    var riskLevel: RiskLevel
    var category: Category
    var source: DomainSource
    var firstSeen: int
    var lastSeen: int
    var isActive: bool
    var indicators: seq<Indicator>
    var whois: Whois
    var sslInfo: SslInfo
    var reputation: Reputation

    /** The document's current field values, as they would be saved. */
    function Doc(): DomainDoc
      reads this
    {
      DomainDoc(domain, riskScore, riskLevel, category, source, firstSeen, lastSeen,
                isActive, indicators, whois, sslInfo, reputation)
    }

    /** Hydrates a stored document (what `findOne` returns). */
    constructor FromDoc(d: DomainDoc)
      ensures Doc() == d
    {
      domain, riskScore, riskLevel, category := d.domain, d.riskScore, d.riskLevel, d.category;
      source, firstSeen, lastSeen, isActive := d.source, d.firstSeen, d.lastSeen, d.isActive;
      indicators, whois, sslInfo, reputation := d.indicators, d.whois, d.sslInfo, d.reputation;
    }

    /** `new SuspiciousDomain({domain, category, source, indicators})` at time `now`. */
    constructor (name: string, category: Category, source: DomainSource,
                 indicators: seq<Indicator>, now: int)
      ensures Doc() == NewDomainDoc(name, category, source, indicators, now)
    {
      domain, riskScore, riskLevel, this.category := DomainSetter(name), 50, Medium, category;
      this.source, firstSeen, lastSeen, isActive := source, now, now, true;
      this.indicators, whois, sslInfo, reputation := indicators, Whois(None), SslInfo(false, false), Reputation(0, 0, 0);
    }

    /** `updateRiskScore`, with the clock reading passed in as `now`: recomputes
        the score from the indicators, the category floor, SSL and registration
        age, and sets the level; nothing else changes. It ends in `save()`,
        which succeeds exactly when the rescored document validates. */
    method UpdateRiskScore(now: int) returns (saved: bool)
      modifies this
      ensures Doc() == Rescore(old(Doc()), now)
      ensures saved <==> IsValidDoc(Doc())
    {
      var score := 0;
      var i := 0;
      while i < |indicators|
        invariant 0 <= i <= |indicators|
        invariant score == ConfidenceSum(indicators[..i])
      {
        assert indicators[..i + 1][..i] == indicators[..i];
        score := score + EffectiveConfidence(indicators[i]);
        i := i + 1;
      }
      assert indicators[..i] == indicators;
      score := Max(score, CategoryFloor(category));
      if !sslInfo.hasSSL { score := score + 20; }
      if sslInfo.isExpired { score := score + 15; }
      assert score == Max(ConfidenceSum(indicators), CategoryFloor(category)) + SslAdjustment(sslInfo);
      if whois.registrationDate.Some? {
        var age := now - whois.registrationDate.value;
        if age < 30 * DAY_MS { score := score + 25; }
        else if age < 90 * DAY_MS { score := score + 15; }
      }
      assert score == UnclampedRisk(Doc(), now);
      riskScore := Min(Max(score, 0), 100);
      if riskScore >= 80 { riskLevel := Critical; }
      else if riskScore >= 60 { riskLevel := High; }
      else if riskScore >= 40 { riskLevel := Medium; }
      else { riskLevel := Low; }
      assert riskLevel == Bucket(riskScore);
      saved := Violations(Doc()) == [];
    }

    /** `Object.assign(domain, body)`. */
    method Assign(p: DomainPatch)
      modifies this
      ensures Doc() == Patched(old(Doc()), p)
    {
      var d := Patched(Doc(), p);
      category, indicators, whois, sslInfo, isActive := d.category, d.indicators, d.whois, d.sslInfo, d.isActive;
    }

    /** `addIndicator(type, description, confidence = 50)`: appends one indicator
        at the end (confidence defaulting to 50 when not given), sets `lastSeen`
        and rescores, whose `save()` it returns: the save is refused exactly
        when the changed document fails validation, and the in-memory document
        keeps the changes either way. */
    method AddIndicator(kind: IndicatorType, description: string, confidence: Option<int>, now: int)
      returns (saved: bool)
      modifies this
      ensures indicators == old(indicators) + [Indicator(kind, description, Some(confidence.GetOr(50)))]
      ensures lastSeen == now
      ensures Doc() == Rescore(old(Doc()).(indicators := indicators, lastSeen := now), now)
      ensures saved <==> IsValidDoc(Doc())
    {
      indicators := indicators + [Indicator(kind, description, Some(confidence.GetOr(50)))];
      lastSeen := now;
      saved := UpdateRiskScore(now);
    }
  }
}
