/** Worked instances of the normaliser and the heuristic scorer. */
module HeuristicExamples {
  import opened Wrappers
  import opened JsStrings
  import opened RiskLevels
  import opened DomainModel
  import opened DomainHeuristics

  /** On a lower-case name without surrounding white space only the prefix
      rules act. */
  lemma NormalizeOfClean(x: string)
    requires IsLowerCase(x) && x != [] && !IsSpace(x[0]) && !IsSpace(x[|x| - 1])
    ensures Normalize(x) == StripPrefix(StripScheme(x), "www.")
  {
    assert ToLower(x) == x by { ToLowerOfLower(x); }
    assert Trim(x) == x by { TrimFixpoint(x); }
  }

  /** A lower-case name behind a single `www.` comes back without it. */
  lemma NormalizeStripsWww(u: string)
    requires IsLowerCase(u) && u != [] && !IsSpace(u[|u| - 1])
    ensures Normalize("www." + u) == u
  {
    var x := "www." + u;
    assert IsLowerCase(x) && x[0] == 'w' && x[|x| - 1] == u[|u| - 1];
    NormalizeOfClean(x);
    NoSchemeUnlessH(x);
    assert x[..4] == "www." && x[4..] == u;
  }

  /** Only one `www.` is removed, so normalising twice can differ from once:
      `www.www.a.com` becomes `www.a.com`, which becomes `a.com`. */
  lemma NormalizeNotIdempotent(u: string)
    requires IsLowerCase(u) && u != [] && !IsSpace(u[|u| - 1])
    ensures Normalize("www.www." + u) == "www." + u
    ensures Normalize(Normalize("www.www." + u)) == u
  {
    assert "www.www." + u == "www." + ("www." + u);
    NormalizeStripsWww("www." + u);
    NormalizeStripsWww(u);
  }

  lemma PrefixIsLower(scheme: string, www: string)
    requires scheme == "https://" && www == "www."
    ensures ToLower(scheme) == scheme && ToLower(www) == www
  {
    ToLowerOfLower(scheme);
    ToLowerOfLower(www);
  }

  lemma LowerBehindPrefixes(h: string)
    ensures ToLower("https://" + ("www." + h)) == "https://" + ("www." + ToLower(h))
  {
    ToLowerConcat("www.", h);
    ToLowerConcat("https://", "www." + h);
    PrefixIsLower("https://", "www.");
  }

  /** A clean lower-case name behind `https://www.` comes back without both. */
  lemma NormalizeStripsSchemeAndWww(l: string)
    requires IsLowerCase(l) && l != [] && !IsSpace(l[|l| - 1])
    ensures Normalize("https://" + ("www." + l)) == l
  {
    var rest := "www." + l;
    var t := "https://" + rest;
    assert !IsSpace(t[|t| - 1]) by { assert t[|t| - 1] == l[|l| - 1]; }
    assert !IsSpace(t[0]) by { assert t[0] == 'h'; }
    assert IsLowerCase(t) by {
      forall i | 0 <= i < |t| ensures !IsUpperAscii(t[i]) {
        if i >= 12 { assert t[i] == l[i - 12]; }
      }
    }
    NormalizeOfClean(t);
    assert StripScheme(t) == rest by {
      assert t[..8] == "https://" && t[8..] == rest;
    }
    assert StripPrefix(rest, "www.") == l by {
      assert rest[..4] == "www." && rest[4..] == l;
    }
  }

  /** Scheme, `www.` and case are all removed: `https://www.Example.COM`
      becomes `example.com`. */
  lemma NormalizeSchemeAndWww(h: string)
    requires h != [] && !IsSpace(ToLower(h)[|h| - 1])
    ensures Normalize("https://" + ("www." + h)) == ToLower(h)
  {
    var x := "https://" + ("www." + h);
    LowerBehindPrefixes(h);
    NormalizeIgnoresCase(x);
    NormalizeStripsSchemeAndWww(ToLower(h));
  }

  lemma LowerExample(h: string)
    requires h == "Example.COM"
    ensures ToLower(h) == "example.com"
  {
    var r := ToLower(h);
    assert forall i :: 0 <= i < |h| ==> r[i] == "example.com"[i];
  }

  lemma NormalizeExample(h: string)
    requires h == "Example.COM"
    ensures Normalize("https://" + ("www." + h)) == "example.com"
  {
    LowerExample(h);
    assert !IsSpace(ToLower(h)[|h| - 1]);
    NormalizeSchemeAndWww(h);
  }

  /** A name lacking one of the brand's letters cannot contain the brand. */
  lemma MissingLetter(s: string, brand: string, c: char)
    requires c in brand && c !in s
    ensures !Contains(s, brand)
  {
    ContainsIff(s, brand);
  }

  /** The brand loop written out: one optional indicator per brand, in order. */
  lemma BrandLoopUnrolled(d: string)
    ensures TyposquatHits(d, BRANDS) ==
      Hit(d, "google") + Hit(d, "facebook") + Hit(d, "amazon") + Hit(d, "microsoft") + Hit(d, "apple")
  {
    var b := BRANDS;
    assert b[..1][..0] == [];
    assert TyposquatHits(d, b[..1]) == Hit(d, "google");
    assert b[..2][..1] == b[..1];
    assert TyposquatHits(d, b[..2]) == Hit(d, "google") + Hit(d, "facebook");
    assert b[..3][..2] == b[..2];
    assert TyposquatHits(d, b[..3]) == Hit(d, "google") + Hit(d, "facebook") + Hit(d, "amazon");
    assert b[..4][..3] == b[..3];
    assert b[..5][..4] == b[..4];
    assert b[..5] == b;
  }

  function Hit(d: string, brand: string): seq<Indicator> {
    if TyposquatFires(d, brand) then [TyposquatIndicator(brand)] else []
  }

  /** A name that fires no brand check scores only its other checks. */
  lemma AnalyzeWithoutBrand(d: string)
    requires TyposquatHits(d, BRANDS) == []
    ensures Analyze(d).category == Suspicious
    ensures Analyze(d).indicators == TldIndicators(d) + LengthIndicators(d) + DigitIndicators(d) + HyphenIndicators(d)
  {
    var t := TldIndicators(d);
    assert TyposquatHits(d, BRANDS) + t == t;
  }

  /** The TLD starts at the last `.`. */
  lemma TldAt(d: string, k: int)
    requires 0 <= k < |d| && d[k] == '.' && '.' !in d[k + 1..]
    ensures Tld(d) == d[k..]
  {
    LastIndexOfAt(d, '.', k);
  }

  /** Digit and hyphen counts of the three sample names. */
  lemma GoogleComCounts()
    ensures CountDigits("google.com") == 0 && Count("google.com", '-') == 0
  {
  }

  lemma ShortTldCounts()
    ensures CountDigits("a.tk") == 0 && Count("a.tk", '-') == 0
  {
  }

  lemma GoogleTkCounts()
    ensures CountDigits("google.tk") == 0 && Count("google.tk", '-') == 0
  {
  }

  lemma GoogleHomeBrands(d: string)
    requires d == "google.com"
    ensures TyposquatHits(d, BRANDS) == []
  {
    assert !TyposquatFires(d, "google") by { assert d == "google" + ".com"; }
    NoOtherBrand(d);
    BrandLoopUnrolled(d);
  }

  /** A name without `f`, `z`, `i` and `p` contains none of the last four brands. */
  lemma NoOtherBrand(d: string)
    requires 'f' !in d && 'z' !in d && 'i' !in d && 'p' !in d
    ensures !TyposquatFires(d, "facebook") && !TyposquatFires(d, "amazon")
    ensures !TyposquatFires(d, "microsoft") && !TyposquatFires(d, "apple")
  {
    MissingLetter(d, "facebook", 'f');
    MissingLetter(d, "amazon", 'z');
    MissingLetter(d, "microsoft", 'i');
    MissingLetter(d, "apple", 'p');
  }

  lemma TldNotSuspicious()
    ensures ".com" !in SUSPICIOUS_TLDS
  {
    assert forall i :: 0 <= i < |SUSPICIOUS_TLDS| ==> |SUSPICIOUS_TLDS[i]| != 4 || SUSPICIOUS_TLDS[i][1] != 'c';
  }

  /** A brand's own `.com` name does not trip its typosquat check, and
      `google.com` fires nothing at all. */
  lemma BrandHomeIsClean(d: string)
    requires d == "google.com"
    ensures Analyze(d) == HeuristicResult(false, Low, 0, Suspicious, [])
  {
    GoogleHomeBrands(d);
    TldAt(d, 6);
    GoogleComCounts();
    TldNotSuspicious();
    AnalyzeWithoutBrand(d);
  }

  lemma ShortTldBrands(d: string)
    requires d == "a.tk"
    ensures TyposquatHits(d, BRANDS) == []
  {
    MissingLetter(d, "google", 'g');
    NoOtherBrand(d);
    BrandLoopUnrolled(d);
  }

  /** `a.tk` trips only the TLD check. */
  lemma SuspiciousTldExample(d: string)
    requires d == "a.tk"
    ensures Analyze(d) ==
      HeuristicResult(true, High, 60, Suspicious, [Indicator(SuspiciousTld, "Suspicious TLD: " + ".tk", Some(60))])
  {
    ShortTldBrands(d);
    TldAt(d, 1);
    ShortTldCounts();
    assert SUSPICIOUS_TLDS[0] == ".tk";
    AnalyzeWithoutBrand(d);
    assert RawScore(d) == 60;
  }

  lemma BrandUnderTldBrands(d: string)
    requires d == "google.tk"
    ensures TyposquatHits(d, BRANDS) == [TyposquatIndicator("google")]
  {
    assert TyposquatFires(d, "google") by {
      assert d[..6] == "google";
      assert |d| != |"google" + ".com"|;
    }
    NoOtherBrand(d);
    BrandLoopUnrolled(d);
  }

  /** Of the four checks after the brand loop, only the TLD check fires on `google.tk`. */
  lemma GoogleTkChecks(d: string)
    requires d == "google.tk"
    ensures TldIndicators(d) == [Indicator(SuspiciousTld, "Suspicious TLD: " + ".tk", Some(60))]
    ensures LengthIndicators(d) == [] && DigitIndicators(d) == [] && HyphenIndicators(d) == []
  {
    TldAt(d, 6);
    GoogleTkCounts();
    assert Tld(d) == ".tk" == SUSPICIOUS_TLDS[0];
  }

  lemma GoogleTkScores(d: string)
    requires d == "google.tk"
    ensures TyposquatHits(d, BRANDS) == [TyposquatIndicator("google")]
    ensures HeuristicIndicators(d) ==
      [TyposquatIndicator("google"), Indicator(SuspiciousTld, "Suspicious TLD: " + ".tk", Some(60))]
    ensures RawScore(d) == 140
  {
    BrandUnderTldBrands(d);
    GoogleTkChecks(d);
  }

  /** A brand name under a suspicious TLD fires two checks; the raw score 140
      is clamped to 100. */
  lemma TyposquatExample(d: string)
    requires d == "google.tk"
    ensures Analyze(d) ==
      HeuristicResult(true, Critical, 100, Phishing,
        [TyposquatIndicator("google"), Indicator(SuspiciousTld, "Suspicious TLD: " + ".tk", Some(60))])
  {
    GoogleTkScores(d);
  }
}
