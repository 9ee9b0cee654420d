/**
 * Choosing the page the recipe importer loads: per-domain rewrites of a recipe URL into
 * its print view, the domain of a URL with one leading "www." removed, and the order in
 * which the generic extractor looks for a recipe container.
 *
 * Parsing a URL into its hostname is left to the URL Standard: the hostname (or None when
 * parsing throws) is an input.
 */
module PrintUrl {
  import opened Js

  // ---------------------------------------------------------------------------
  // Searching strings
  // ---------------------------------------------------------------------------

  /** `sub` occurs in `s` starting at position `k`. */
  predicate OccursAt(s: string, sub: string, k: nat) {
    k + |sub| <= |s| && s[k..k + |sub|] == sub
  }

  /** Dropping the first character moves every occurrence one place to the left. */
  lemma OccursShift(s: string, sub: string, k: nat)
    requires s != []
    ensures OccursAt(s, sub, k + 1) == OccursAt(s[1..], sub, k)
  {
    if k + 1 + |sub| <= |s| {
      assert s[k + 1..k + 1 + |sub|] == s[1..][k..k + |sub|];
    }
  }

  /** `s.indexOf(sub)`: the first position at which `sub` occurs, if any. */
  function IndexOf(s: string, sub: string): (r: Option<nat>)
    ensures r.Some? <==> Contains(s, sub)
    ensures r.Some? ==> OccursAt(s, sub, r.value)
    ensures r.Some? ==> forall k: nat | k < r.value :: !OccursAt(s, sub, k)
    ensures r.None? ==> forall k: nat :: !OccursAt(s, sub, k)
    decreases |s|
  {
    if StartsWith(s, sub) then
      assert OccursAt(s, sub, 0);
      Some(0)
    else if s == [] then None
    else
      assert !OccursAt(s, sub, 0);
      forall k: nat ensures OccursAt(s, sub, k + 1) == OccursAt(s[1..], sub, k) {
        OccursShift(s, sub, k);
      }
      match IndexOf(s[1..], sub)
      case None =>
        assert forall k: nat | k >= 1 :: OccursAt(s, sub, k) == OccursAt(s[1..], sub, k - 1);
        None
      case Some(k) =>
        assert forall j: nat | 1 <= j :: OccursAt(s, sub, j) == OccursAt(s[1..], sub, j - 1);
        Some(k + 1)
  }

  /** `s.replace(pattern, replacement)` with a string pattern: only the first occurrence is replaced. */
  function ReplaceFirst(s: string, pattern: string, replacement: string): (r: string)
    ensures !Contains(s, pattern) ==> r == s
    ensures Contains(s, pattern) ==> |r| == |s| - |pattern| + |replacement|
  {
    match IndexOf(s, pattern)
    case None => s
    case Some(i) => s[..i] + replacement + s[i + |pattern|..]
  }

  // ---------------------------------------------------------------------------
  // Print-view rewrites
  // ---------------------------------------------------------------------------

  /** allrecipes.com: ask for the print view with a `print` query parameter. */
  function AllrecipesPrint(url: string): (r: string)
    ensures StartsWith(r, url)
    ensures Contains(url, "?print") ==> r == url
    ensures !Contains(url, "?print") && '?' in url ==> r == url + "&print"
    ensures !Contains(url, "?print") && '?' !in url ==> r == url + "?print"
  {
    if !Contains(url, "?print") then
      if '?' in url then url + "&print" else url + "?print"
    else url
  }

  /** On a URL without a query the rewrite is idempotent: the second pass finds `?print`. */
  lemma AllrecipesIdempotent(url: string)
    requires '?' !in url
    ensures AllrecipesPrint(AllrecipesPrint(url)) == AllrecipesPrint(url)
  {
    forall k: nat ensures !OccursAt(url, "?print", k) {
      if k + 6 <= |url| {
        assert url[k..k + 6][0] == url[k];
      }
    }
    assert IndexOf(url, "?print").None?;
    var once := url + "?print";
    assert OccursAt(once, "?print", |url|);
    assert IndexOf(once, "?print").Some?;
  }

  /** Appending `&print` does not create a `?print`. */
  lemma AppendCreatesNoQueryPrint(url: string, k: nat)
    requires !OccursAt(url, "?print", k)
    ensures !OccursAt(url + "&print", "?print", k)
  {
    var once := url + "&print";
    if k + 6 <= |url| {
      assert once[k..k + 6] == url[k..k + 6];
    } else if k < |url| && k + 6 <= |once| {
      assert once[|url|] == '&';
      assert once[k..k + 6][|url| - k] == once[|url|];
    } else if k + 6 <= |once| {
      assert once[k] == "&print"[k - |url|];
      assert once[k..k + 6][0] == once[k];
    }
  }

  /**
   * On a URL with a query but no `?print`, every pass appends another `&print`: the
   * rewrite is not idempotent there.
   */
  lemma AllrecipesAppendsAgain(url: string)
    requires '?' in url && !Contains(url, "?print")
    ensures AllrecipesPrint(AllrecipesPrint(url)) == url + "&print&print"
  {
    var once := url + "&print";
    assert IndexOf(url, "?print").None?;
    forall k: nat ensures !OccursAt(once, "?print", k) {
      AppendCreatesNoQueryPrint(url, k);
    }
    assert IndexOf(once, "?print").None?;
    assert '?' in once by {
      var i :| 0 <= i < |url| && url[i] == '?';
      assert once[i] == '?';
    }
    assert once + "&print" == url + "&print&print";
  }

  const Recipes: string := "/rezepte/"
  const PrintRecipes: string := "/rezepte/drucken/"

  /** chefkoch.de: the first `/rezepte/` becomes `/rezepte/drucken/`, unless the URL already has it. */
  function ChefkochPrint(url: string): (r: string)
    ensures Contains(url, PrintRecipes) ==> r == url
    ensures !Contains(url, PrintRecipes) ==> r == ReplaceFirst(url, Recipes, PrintRecipes)
  {
    if !Contains(url, PrintRecipes) then ReplaceFirst(url, Recipes, PrintRecipes) else url
  }

  /** Rewriting a chefkoch URL twice gives what rewriting it once gives. */
  lemma ChefkochIdempotent(url: string)
    ensures ChefkochPrint(ChefkochPrint(url)) == ChefkochPrint(url)
  {
    if !Contains(url, PrintRecipes) {
      match IndexOf(url, Recipes)
      case None =>
      case Some(i) =>
        var once := url[..i] + PrintRecipes + url[i + |Recipes|..];
        assert once == ChefkochPrint(url);
        assert once[i..i + |PrintRecipes|] == PrintRecipes;
        assert OccursAt(once, PrintRecipes, i);
        assert IndexOf(once, PrintRecipes).Some?;
    }
  }

  /** The rewrite a domain's table entry applies. */
  datatype Rewrite = AddPrintQuery | PrintPath | KeepUrl

  function Apply(rule: Rewrite, url: string): string {
    match rule
    case AddPrintQuery => AllrecipesPrint(url)
    case PrintPath => ChefkochPrint(url)
    case KeepUrl => url
  }

  /** `PRINT_URL_PATTERNS`: domain to rewrite. */
  const PrintUrlPatterns: map<string, Rewrite> := map[
    "allrecipes.com" := AddPrintQuery,
    "chefkoch.de" := PrintPath,
    "gutekueche.at" := KeepUrl,
    "einfachbacken.de" := KeepUrl,
    "ichkoche.at" := KeepUrl,
    "oetker.at" := KeepUrl,
    "thekitchn.com" := KeepUrl
  ]

  // ---------------------------------------------------------------------------
  // Domains and the URL loaded
  // ---------------------------------------------------------------------------

  /**
   * `getDomain(url)`, given the hostname the URL parser yields (None when it throws):
   * the hostname with one leading "www." removed.
   */
  function GetDomain(hostname: Option<string>): (r: Option<string>)
    ensures r.None? <==> hostname.None?
    ensures r.Some? && StartsWith(hostname.value, "www.") ==> "www." + r.value == hostname.value
    ensures r.Some? && !StartsWith(hostname.value, "www.") ==> r.value == hostname.value
  {
    match hostname
    case None => None
    case Some(h) =>
      if StartsWith(h, "www.") then
        assert h == h[..4] + h[4..];
        Some(h[4..])
      else Some(h)
  }

  /** `getPrintOrFallbackUrl(url)`: the table's rewrite for a known domain, the URL itself otherwise. */
  function GetPrintOrFallbackUrl(url: string, hostname: Option<string>): (r: string)
    ensures GetDomain(hostname).None? ==> r == url
    ensures GetDomain(hostname).Some? && GetDomain(hostname).value !in PrintUrlPatterns ==> r == url
    ensures GetDomain(hostname).Some? && GetDomain(hostname).value in PrintUrlPatterns ==>
      r == Apply(PrintUrlPatterns[GetDomain(hostname).value], url)
  {
    var domain := GetDomain(hostname);
    if domain.Some? && domain.value != "" && domain.value in PrintUrlPatterns then
      Apply(PrintUrlPatterns[domain.value], url)
    else url
  }

  /** The five domains without a print view load the URL as given. */
  lemma KeepUrlDomains(url: string, hostname: Option<string>)
    requires GetDomain(hostname).Some?
    requires GetDomain(hostname).value in {"gutekueche.at", "einfachbacken.de", "ichkoche.at", "oetker.at", "thekitchn.com"}
    ensures GetPrintOrFallbackUrl(url, hostname) == url
  {
    var d := GetDomain(hostname).value;
    assert d in PrintUrlPatterns && PrintUrlPatterns[d] == KeepUrl;
  }

  /** A "www." host and the bare host choose the same rewrite. */
  lemma WwwIsIgnored(url: string, host: string)
    requires !StartsWith(host, "www.")
    ensures GetPrintOrFallbackUrl(url, Some("www." + host)) == GetPrintOrFallbackUrl(url, Some(host))
  {
    var h := "www." + host;
    assert StartsWith(h, "www.");
    assert h[4..] == host;
  }

  /** A domain-specific extractor: how it rewrites the URL to load. */
  datatype Extractor = Extractor(printUrl: Rewrite)

  /** `domainExtractors`, each with its `printUrl` taken from the table for its domain. */
  const DomainExtractors: map<string, Extractor> := map[
    "allrecipes.com" := Extractor(PrintUrlPatterns["allrecipes.com"]),
    "chefkoch.de" := Extractor(PrintUrlPatterns["chefkoch.de"]),
    "gutekueche.at" := Extractor(PrintUrlPatterns["gutekueche.at"]),
    "einfachbacken.de" := Extractor(PrintUrlPatterns["einfachbacken.de"]),
    "ichkoche.at" := Extractor(PrintUrlPatterns["ichkoche.at"]),
    "oetker.at" := Extractor(PrintUrlPatterns["oetker.at"]),
    "thekitchn.com" := Extractor(PrintUrlPatterns["thekitchn.com"])
  ]

  /** The URL `parseRecipeWithPuppeteer` navigates to: the known extractor's rewrite, or the URL. */
  function TargetUrl(url: string, hostname: Option<string>): string {
    var domain := GetDomain(hostname);
    if domain.Some? && domain.value != "" && domain.value in DomainExtractors then
      Apply(DomainExtractors[domain.value].printUrl, url)
    else url
  }

  /** The page loaded is always the one `getPrintOrFallbackUrl` names. */
  lemma TargetIsPrintOrFallback(url: string, hostname: Option<string>)
    ensures TargetUrl(url, hostname) == GetPrintOrFallbackUrl(url, hostname)
  {
    assert DomainExtractors.Keys == PrintUrlPatterns.Keys;
    assert forall d | d in DomainExtractors :: DomainExtractors[d].printUrl == PrintUrlPatterns[d];
  }

  // ---------------------------------------------------------------------------
  // The generic extractor
  // ---------------------------------------------------------------------------

  /** The containers `fallbackExtract` tries, in order. */
  const Selectors: seq<string> :=
    [".recipe-main", ".recipe", ".content-recipe", "[itemtype*=\"Recipe\"]", "article#recipe"]

  /**
   * A selector gives the text when the page has a match for it (`found` maps a selector
   * to the inner text of its first match; a failing evaluation reads as "") and that
   * text is not blank.
   */
  predicate Usable(sel: string, found: map<string, string>) {
    sel in found && Trim(found[sel]) != ""
  }

  /** The first usable selector's trimmed text. */
  function FirstContainer(sels: seq<string>, found: map<string, string>): (r: Option<string>)
    ensures r.None? <==> forall i | 0 <= i < |sels| :: !Usable(sels[i], found)
    ensures r.Some? ==> exists i | 0 <= i < |sels| ::
      && Usable(sels[i], found) && r.value == Trim(found[sels[i]])
      && forall j | 0 <= j < i :: !Usable(sels[j], found)
  {
    if sels == [] then None
    else if Usable(sels[0], found) then Some(Trim(found[sels[0]]))
    else
      var rest := FirstContainer(sels[1..], found);
      assert forall i | 1 <= i < |sels| :: sels[i] == sels[1..][i - 1];
      rest
  }

  /**
   * `fallbackExtract`: the trimmed text of the first selector whose match is not blank,
   * whichever of them that is, else the trimmed page text.
   */
  function FallbackExtract(found: map<string, string>, body: string): (r: string)
    ensures (forall i | 0 <= i < |Selectors| :: !Usable(Selectors[i], found)) ==> r == Trim(body)
    ensures forall i | 0 <= i < |Selectors| ::
      Usable(Selectors[i], found) && (forall j | 0 <= j < i :: !Usable(Selectors[j], found)) ==>
        r == Trim(found[Selectors[i]])
  {
    match FirstContainer(Selectors, found)
    case Some(text) => text
    case None => Trim(body)
  }
}
