/** The name normaliser applied by the domain handlers and the heuristic
    scorer `performHeuristicAnalysis`, which runs five independent checks on a
    normalised name, appends one fixed-confidence indicator per check that
    fires and adds its fixed weight to the score. */
module DomainHeuristics {
  import opened Wrappers
  import opened JsStrings
  import opened RiskLevels
  import opened DomainModel

  /** The brands probed for typosquatting: the common `.com` domains with their
      `.com` removed. */
  const BRANDS: seq<string> := ["google", "facebook", "amazon", "microsoft", "apple"]

  const SUSPICIOUS_TLDS: seq<string> := [".tk", ".ml", ".ga", ".cf", ".click", ".download"]

  // ---------------------------------------------------------------- normalisation

  /** Removes one leading `p`, if present. */
  function StripPrefix(s: string, p: string): (r: string)
    ensures StartsWith(s, p) ==> s == p + r
    ensures !StartsWith(s, p) ==> r == s
  {
    if StartsWith(s, p) then s[|p|..] else s
  }

  /** `.replace(/^https?:\/\//, '')`. */
  function StripScheme(s: string): (r: string)
    ensures StartsWith(s, "https://") ==> s == "https://" + r
    ensures !StartsWith(s, "https://") && StartsWith(s, "http://") ==> s == "http://" + r
    ensures !StartsWith(s, "https://") && !StartsWith(s, "http://") ==> r == s
  {
    if StartsWith(s, "https://") then s[8..] else StripPrefix(s, "http://")
  }

  /** `domain.toLowerCase().trim().replace(/^https?:\/\//, '').replace(/^www\./, '')`. */
  function Normalize(raw: string): (n: string)
    ensures IsLowerCase(n)
    ensures |n| <= |raw|
  {
    var t := Trim(ToLower(raw));
    TrimOfLower(ToLower(raw));
    var n := StripPrefix(StripScheme(t), "www.");
    assert n == t[|t| - |n|..];
    assert forall i :: 0 <= i < |n| ==> n[i] == t[|t| - |n| + i];
    n
  }

  /** Normalising is insensitive to case: a name and its lower-case form
      normalise alike. */
  lemma NormalizeIgnoresCase(s: string)
    ensures Normalize(ToLower(s)) == Normalize(s)
  {
    ToLowerOfLower(ToLower(s));
  }

  /** The strings the normaliser leaves alone are exactly those already in lower
      case, with no surrounding white space and no leading scheme or `www.`. */
  lemma NormalizeFixpoint(s: string)
    ensures Normalize(s) == s <==>
      IsLowerCase(s) && Trim(s) == s
      && !StartsWith(s, "http://") && !StartsWith(s, "https://") && !StartsWith(s, "www.")
  {
    if Normalize(s) == s {
      ToLowerOfLower(s);
      var t := Trim(s);
      assert |t| == |s|;
      assert TrimStart(s) == s;
      assert t == s;
      assert StripScheme(s) == s;
    } else if IsLowerCase(s) && Trim(s) == s
      && !StartsWith(s, "http://") && !StartsWith(s, "https://") && !StartsWith(s, "www.") {
      ToLowerOfLower(s);
    }
  }

  /** No scheme to strip: the name does not start with `h`. */
  lemma NoSchemeUnlessH(s: string)
    requires s == [] || s[0] != 'h'
    ensures StripScheme(s) == s
  {
    if |s| >= 8 {
      assert s[..8][0] == s[0];
    }
    if |s| >= 7 {
      assert s[..7][0] == s[0];
    }
  }

  // ---------------------------------------------------------------- the five checks

  /** The typosquat check for one brand: the name contains the brand but is not
      exactly `<brand>.com`. */
  predicate TyposquatFires(domain: string, brand: string) {
    Contains(domain, brand) && domain != brand + ".com"
  }

  function TyposquatIndicator(brand: string): Indicator {
    Indicator(Typosquatting, "Potential typosquatting of " + brand, Some(80))
  }

  /** The indicators the loop over `brands` pushes, in loop order. */
  function TyposquatHits(domain: string, brands: seq<string>): seq<Indicator>
    decreases |brands|
  {
    if brands == [] then []
    else
      var last := brands[|brands| - 1];
      TyposquatHits(domain, brands[..|brands| - 1])
      + (if TyposquatFires(domain, last) then [TyposquatIndicator(last)] else [])
  }

  /** `domain.substring(domain.lastIndexOf('.'))`: the name from its last `.` on,
      or the whole name when it has none (`substring` reads -1 as 0). */
  function Tld(domain: string): (t: string)
    ensures '.' in domain ==> |t| >= 1 && t[0] == '.' && '.' !in t[1..]
    ensures |t| <= |domain| && domain[|domain| - |t|..] == t
    ensures '.' !in domain ==> t == domain
  {
    var k := LastIndexOf(domain, '.');
    if k < 0 then domain else domain[k..]
  }

  function TldIndicators(domain: string): seq<Indicator> {
    if Tld(domain) in SUSPICIOUS_TLDS
    then [Indicator(SuspiciousTld, "Suspicious TLD: " + Tld(domain), Some(60))]
    else []
  }

  function LengthIndicators(domain: string): seq<Indicator> {
    if |domain| > 30 then [Indicator(SuspiciousContent, "Unusually long domain name", Some(40))] else []
  }

  function DigitIndicators(domain: string): seq<Indicator> {
    if CountDigits(domain) > 3 then [Indicator(SuspiciousContent, "High number of digits in domain", Some(30))] else []
  }

  function HyphenIndicators(domain: string): seq<Indicator> {
    if Count(domain, '-') > 2 then [Indicator(SuspiciousContent, "Multiple hyphens in domain", Some(25))] else []
  }

  /** All indicators, in the order the checks run. */
  function HeuristicIndicators(domain: string): seq<Indicator> {
    TyposquatHits(domain, BRANDS) + TldIndicators(domain) + LengthIndicators(domain)
    + DigitIndicators(domain) + HyphenIndicators(domain)
  }

  /** The unclamped score: the weights of the checks that fired (80 per brand). */
  function RawScore(domain: string): nat {
    80 * |TyposquatHits(domain, BRANDS)|
    + (if Tld(domain) in SUSPICIOUS_TLDS then 60 else 0)
    + (if |domain| > 30 then 40 else 0)
    + (if CountDigits(domain) > 3 then 30 else 0)
    + (if Count(domain, '-') > 2 then 25 else 0)
  }

  datatype HeuristicResult = HeuristicResult(
    isSuspicious: bool,
    riskLevel: RiskLevel,
    riskScore: int,
    category: Category,
    indicators: seq<Indicator>)

  /** What the scorer returns: suspicious above 30, the level bucketed on the
      raw score, the score clamped to 100, phishing when a brand was hit. */
  function Analyze(domain: string): (r: HeuristicResult)
    ensures 0 <= r.riskScore <= 100
    ensures r.riskLevel == Bucket(r.riskScore)
  {
    var raw := RawScore(domain);
    BucketOfCapped(raw);
    HeuristicResult(
      raw > 30,
      Bucket(raw),
      Min(raw, 100),
      if TyposquatHits(domain, BRANDS) != [] then Phishing else Suspicious,
      HeuristicIndicators(domain))
  }

  /** The brand loop of `performHeuristicAnalysis`: one indicator and 80
      points per brand that fires, and the category turned to phishing by the
      first hit. */
  method ScanBrands(domain: string) returns (indicators: seq<Indicator>, riskScore: int, category: Category)
    ensures indicators == TyposquatHits(domain, BRANDS)
    ensures riskScore == 80 * |indicators|
    ensures category == (if indicators != [] then Phishing else Suspicious)
  {
    indicators, riskScore, category := [], 0, Suspicious;
    for i := 0 to |BRANDS|
      invariant indicators == TyposquatHits(domain, BRANDS[..i])
      invariant riskScore == 80 * |indicators|
      invariant category == (if indicators != [] then Phishing else Suspicious)
    {
      var pattern := BRANDS[i];
      assert BRANDS[..i + 1][..i] == BRANDS[..i];
      if Contains(domain, pattern) && domain != pattern + ".com" {
        indicators := indicators + [Indicator(Typosquatting, "Potential typosquatting of " + pattern, Some(80))];
        riskScore := riskScore + 80;
        category := Phishing;
      }
    }
    assert BRANDS[..|BRANDS|] == BRANDS;
  }

  /** `performHeuristicAnalysis`, keeping the source's running score and
      category across the brand loop and the four checks after it. */
  method PerformHeuristicAnalysis(domain: string) returns (r: HeuristicResult)
    ensures r == Analyze(domain)
  {
    var indicators, riskScore, category := ScanBrands(domain);
    var typosquats := indicators;

    var domainTld := Tld(domain);
    if domainTld in SUSPICIOUS_TLDS {
      indicators := indicators + [Indicator(SuspiciousTld, "Suspicious TLD: " + domainTld, Some(60))];
      riskScore := riskScore + 60;
    }
    assert indicators == typosquats + TldIndicators(domain);
    ghost var afterTld := indicators;
    if |domain| > 30 {
      indicators := indicators + [Indicator(SuspiciousContent, "Unusually long domain name", Some(40))];
      riskScore := riskScore + 40;
    }
    assert indicators == afterTld + LengthIndicators(domain);
    ghost var afterLength := indicators;
    var numberCount := CountDigits(domain);
    if numberCount > 3 {
      indicators := indicators + [Indicator(SuspiciousContent, "High number of digits in domain", Some(30))];
      riskScore := riskScore + 30;
    }
    assert indicators == afterLength + DigitIndicators(domain);
    ghost var afterDigits := indicators;
    var hyphenCount := Count(domain, '-');
    if hyphenCount > 2 {
      indicators := indicators + [Indicator(SuspiciousContent, "Multiple hyphens in domain", Some(25))];
      riskScore := riskScore + 25;
    }
    assert indicators == afterDigits + HyphenIndicators(domain);
    assert riskScore == RawScore(domain);

    var riskLevel := Low;
    if riskScore >= 80 { riskLevel := Critical; }
    else if riskScore >= 60 { riskLevel := High; }
    else if riskScore >= 40 { riskLevel := Medium; }
    assert riskLevel == Bucket(riskScore);

    r := HeuristicResult(riskScore > 30, riskLevel, Min(riskScore, 100), category, indicators);
  }

  // ---------------------------------------------------------------- properties

  /** Every brand indicator carries confidence 80. */
  lemma {:induction false} TyposquatConfidence(domain: string, brands: seq<string>)
    ensures ConfidenceSum(TyposquatHits(domain, brands)) == 80 * |TyposquatHits(domain, brands)|
    decreases |brands|
  {
    if brands != [] {
      var last := brands[|brands| - 1];
      var front := TyposquatHits(domain, brands[..|brands| - 1]);
      TyposquatConfidence(domain, brands[..|brands| - 1]);
      if TyposquatFires(domain, last) {
        ConfidenceSumConcat(front, [TyposquatIndicator(last)]);
        assert [TyposquatIndicator(last)][..0] == [];
      } else {
        assert front + [] == front;
      }
    }
  }

  lemma SingletonConfidence(ind: Indicator)
    ensures ConfidenceSum([ind]) == EffectiveConfidence(ind)
  {
    assert [ind][..0] == [];
  }

  /** The score is the sum of the indicators' confidences, clamped to 100: each
      check's weight is the confidence of the indicator it appends. A result is
      suspicious exactly when that sum, unclamped, exceeds 30. */
  lemma ScoreIsConfidenceSum(domain: string)
    ensures Analyze(domain).riskScore == Min(100, ConfidenceSum(Analyze(domain).indicators))
    ensures Analyze(domain).isSuspicious <==> ConfidenceSum(Analyze(domain).indicators) > 30
    ensures Analyze(domain).riskScore == Min(100, RawScore(domain))
  {
    IndicatorsSumToRawScore(domain);
  }

  /** The weight of each check is the confidence of the indicator it appends. */
  lemma IndicatorsSumToRawScore(domain: string)
    ensures ConfidenceSum(HeuristicIndicators(domain)) == RawScore(domain)
  {
    var hits := TyposquatHits(domain, BRANDS);
    var t, l, g, h := TldIndicators(domain), LengthIndicators(domain), DigitIndicators(domain), HyphenIndicators(domain);
    assert ConfidenceSum(hits) == 80 * |hits| by { TyposquatConfidence(domain, BRANDS); }
    TldConfidence(domain);
    LengthConfidence(domain);
    DigitConfidence(domain);
    HyphenConfidence(domain);
    ConfidenceSumConcat(hits, t);
    ConfidenceSumConcat(hits + t, l);
    ConfidenceSumConcat(hits + t + l, g);
    ConfidenceSumConcat(hits + t + l + g, h);
  }

  /** The four fixed checks each append at most one indicator, of their own
      weight. */
  lemma TldConfidence(domain: string)
    ensures ConfidenceSum(TldIndicators(domain)) == (if Tld(domain) in SUSPICIOUS_TLDS then 60 else 0)
  {
    if Tld(domain) in SUSPICIOUS_TLDS {
      SingletonConfidence(TldIndicators(domain)[0]);
    }
  }

  lemma LengthConfidence(domain: string)
    ensures ConfidenceSum(LengthIndicators(domain)) == (if |domain| > 30 then 40 else 0)
  {
    if |domain| > 30 {
      SingletonConfidence(LengthIndicators(domain)[0]);
    }
  }

  lemma DigitConfidence(domain: string)
    ensures ConfidenceSum(DigitIndicators(domain)) == (if CountDigits(domain) > 3 then 30 else 0)
  {
    if CountDigits(domain) > 3 {
      SingletonConfidence(DigitIndicators(domain)[0]);
    }
  }

  lemma HyphenConfidence(domain: string)
    ensures ConfidenceSum(HyphenIndicators(domain)) == (if Count(domain, '-') > 2 then 25 else 0)
  {
    if Count(domain, '-') > 2 {
      SingletonConfidence(HyphenIndicators(domain)[0]);
    }
  }

  /** No brand fires exactly when the loop pushes nothing. */
  lemma {:induction false} NoHitsIff(domain: string, brands: seq<string>)
    ensures TyposquatHits(domain, brands) == [] <==>
      forall i :: 0 <= i < |brands| ==> !TyposquatFires(domain, brands[i])
    decreases |brands|
  {
    if brands != [] {
      var front := brands[..|brands| - 1];
      NoHitsIff(domain, front);
      assert forall i :: 0 <= i < |front| ==> front[i] == brands[i];
    }
  }

  /** The category is phishing exactly when some brand check fires, and
      suspicious otherwise; the checks after the brand loop play no part. */
  lemma PhishingIff(domain: string)
    ensures Analyze(domain).category == Phishing <==>
      exists i :: 0 <= i < |BRANDS| && TyposquatFires(domain, BRANDS[i])
    ensures Analyze(domain).category != Phishing ==> Analyze(domain).category == Suspicious
  {
    NoHitsIff(domain, BRANDS);
  }
}
