/** Scoring a retailer product from explained receipt tokens, and resolving one misread glyph from OCR observations. */
module ProductEvidence {
  import opened Options

  /** How consonants of a token match a word. */
  datatype Reduction = SameConsonants | ConsonantsOfPrefix | OneConsonantLess | OneVowelLess

  datatype Kind =
    | Unmatched | ExactToken | BrandInitialism | OcrBrandInitialism | TokenInflection | TokenPrefix
    | CompoundAbbreviation | Consonants(how: Reduction) | CategorySynonym | JoinedTokenPrefix | ExactPercentage
    | ObservedGlyph

  /** What an explanation is worth. */
  function Weight(kind: Kind): real {
    match kind
    case Unmatched => 0.0
    case ExactToken => 1.0
    case BrandInitialism => 1.0
    case ExactPercentage => 1.0
    case OcrBrandInitialism => 0.95
    case TokenInflection => 0.95
    case TokenPrefix => 0.9
    case CompoundAbbreviation => 0.9
    case JoinedTokenPrefix => 0.9
    case Consonants(how) => if how == SameConsonants then 0.9 else 0.85
    case CategorySynonym => 0.85
    case ObservedGlyph => 0.85
  }

  /**
   One token of the receipt line and the words that explain it; `sources` are the observations that resolved a
   misread glyph.
   */
  datatype Token = Token(text: string, kind: Kind, matched: Option<string>, weight: real, sources: seq<string>)

  const THRESHOLD := 0.85

  predicate IsWeighted(t: Token) {
    t.weight == Weight(t.kind)
  }

  /** Every way of explaining a token weighs at least the threshold; an unmatched token weighs nothing. */
  lemma ExplainedWeighs(t: Token)
    requires IsWeighted(t)
    ensures if t.kind == Unmatched then t.weight == 0.0 else THRESHOLD <= t.weight <= 1.0
  {
  }

  predicate AreWeighted(tokens: seq<Token>) {
    forall t | t in tokens :: IsWeighted(t)
  }

  predicate Explained(tokens: seq<Token>) {
    forall t | t in tokens :: t.kind != Unmatched
  }

  // Matching the tokens on the product page.

  datatype Initials = NoInitials | SameInitials(text: string) | OneConfused(text: string)

  /** What the title and the URL say about a text; `span` finds a word, or two adjacent words, that begin with it. */
  datatype Page = Page(hasWord: string -> bool, initials: string -> Initials, inflection: string -> Option<string>,
                       prefix: string -> Option<string>, compound: string -> Option<string>,
                       consonants: string -> Option<(string, Reduction)>, synonym: string -> Option<string>,
                       span: string -> Option<string>)

  const NEGATIONS := {"no", "not", "non"}

  function Found(text: string, kind: Kind, matched: string): Token {
    Token(text, kind, Some(matched), Weight(kind), [])
  }

  function NotFound(text: string): Token {
    Token(text, Unmatched, None, 0.0, [])
  }

  /** The first explanation that applies; a negation must be printed on the page as it is. */
  function Explain(page: Page, index: nat, text: string): Token {
    var initials := if index == 0 && 2 <= |text| <= 5 then page.initials(text) else NoInitials;
    if page.hasWord(text) then Found(text, ExactToken, text)
    else if text in NEGATIONS then NotFound(text)
    else if initials.SameInitials? then Found(text, BrandInitialism, initials.text)
    else if initials.OneConfused? then Found(text, OcrBrandInitialism, initials.text)
    else if page.inflection(text).Some? then Found(text, TokenInflection, page.inflection(text).value)
    else if page.prefix(text).Some? then Found(text, TokenPrefix, page.prefix(text).value)
    else if page.compound(text).Some? then Found(text, CompoundAbbreviation, page.compound(text).value)
    else if page.consonants(text).Some? then
      Found(text, Consonants(page.consonants(text).value.1), page.consonants(text).value.0)
    else if page.synonym(text).Some? then Found(text, CategorySynonym, page.synonym(text).value)
    else NotFound(text)
  }

  /** Some way of explaining the token alone applies. */
  predicate HasExplanation(page: Page, index: nat, text: string) {
    || page.hasWord(text)
    || (text != "no" && text != "not" && text != "non"
        && (|| (index == 0 && 2 <= |text| <= 5 && page.initials(text) != NoInitials)
            || page.inflection(text).Some? || page.prefix(text).Some? || page.compound(text).Some?
            || page.consonants(text).Some? || page.synonym(text).Some?))
  }

  /** A token is explained exactly when some way applies, and the first that applies is never the weaker one. */
  lemma ExplainIsHeaviest(page: Page, index: nat, text: string)
    ensures var t := Explain(page, index, text);
            && t.text == text && (t.kind != Unmatched <==> HasExplanation(page, index, text))
            && (page.hasWord(text) <==> t.kind == ExactToken) && (t.kind == ExactToken ==> t.weight == 1.0)
            && (t.kind == Unmatched ==> t.weight == 0.0)
            && (t.kind != Unmatched && index == 0 && 2 <= |text| <= 5 ==>
                  && (page.initials(text).SameInitials? ==> t.weight == 1.0)
                  && (page.initials(text).OneConfused? ==> t.weight >= 0.95))
            && (t.kind != Unmatched ==>
                  && (page.inflection(text).Some? ==> t.weight >= 0.95)
                  && (page.prefix(text).Some? || page.compound(text).Some? ==> t.weight >= 0.9)
                  && (page.consonants(text).Some? && page.consonants(text).value.1 == SameConsonants ==>
                        t.weight >= 0.9)
                  && 0.85 <= t.weight <= 1.0)
  {
  }

  predicate IsAlpha(text: string) {
    forall i | 0 <= i < |text| :: 'a' <= text[i] <= 'z'
  }

  /** The printed span of tokens `k` and `k + 1`, joined, begins a span of the page. */
  predicate JoinsNext(page: Page, tokens: seq<Token>, k: nat) {
    && k + 1 < |tokens| && IsAlpha(tokens[k].text + tokens[k + 1].text) && |tokens[k].text + tokens[k + 1].text| >= 6
    && page.span(tokens[k].text + tokens[k + 1].text).Some?
  }

  /** The pair is joined: one of its tokens still lacks an explanation when its turn comes. */
  predicate IsJoined(page: Page, tokens: seq<Token>, k: nat) {
    && JoinsNext(page, tokens, k)
    && (tokens[k + 1].kind == Unmatched || (tokens[k].kind == Unmatched && !(k > 0 && JoinsNext(page, tokens, k - 1))))
  }

  function Joined(page: Page, tokens: seq<Token>, k: nat, text: string): Token
    requires JoinsNext(page, tokens, k)
  {
    Found(text, JoinedTokenPrefix, page.span(tokens[k].text + tokens[k + 1].text).value)
  }

  /** A token after the pairs before `k` had their turn. */
  function AfterJoining(page: Page, tokens: seq<Token>, k: nat, i: nat): Token
    requires i < |tokens|
  {
    if i < k && IsJoined(page, tokens, i) then Joined(page, tokens, i, tokens[i].text)
    else if 0 < i <= k && IsJoined(page, tokens, i - 1) then Joined(page, tokens, i - 1, tokens[i].text)
    else tokens[i]
  }

  /** The pass over adjacent tokens for words that OCR split. */
  method JoinSpans(page: Page, before: seq<Token>) returns (tokens: seq<Token>)
    requires forall t | t in before :: t.sources == []
    ensures |tokens| == |before|
    ensures forall i | 0 <= i < |tokens| :: tokens[i] == AfterJoining(page, before, |before|, i)
  {
    tokens := before;
    if |before| < 2 { return; }
    for k := 0 to |before| - 1
      invariant |tokens| == |before|
      invariant forall i | 0 <= i < |tokens| :: tokens[i] == AfterJoining(page, before, k, i)
    {
      hide IsAlpha, IsFresh, Weight;
      var left, right := tokens[k], tokens[k + 1];
      assert before[k] in before && before[k + 1] in before;
      var joined := left.text + right.text;
      if (left.kind == Unmatched || right.kind == Unmatched) && IsAlpha(joined) && |joined| >= 6
         && page.span(joined).Some?
      {
        var matched := page.span(joined);
        tokens := tokens[k := left.(kind := JoinedTokenPrefix, matched := matched,
                                    weight := Weight(JoinedTokenPrefix))];
        tokens := tokens[k + 1 := right.(kind := JoinedTokenPrefix, matched := matched,
                                         weight := Weight(JoinedTokenPrefix))];
      }
    }
  }

  /** One of the two pairs a token belongs to begins a span of the page. */
  predicate IsInSpan(page: Page, tokens: seq<Token>, i: nat) {
    JoinsNext(page, tokens, i) || (i > 0 && JoinsNext(page, tokens, i - 1))
  }

  /** Joining explains exactly the unmatched tokens of such pairs, and no token loses its explanation. */
  lemma JoiningExplains(page: Page, tokens: seq<Token>, i: nat)
    requires i < |tokens|
    ensures var t := AfterJoining(page, tokens, |tokens|, i);
            && t.text == tokens[i].text && (IsWeighted(tokens[i]) ==> IsWeighted(t))
            && (t.kind != Unmatched <==> tokens[i].kind != Unmatched || IsInSpan(page, tokens, i))
  {
    hide IsAlpha;
  }

  function FirstWord(text: string): string {
    if text == "" || text[0] == ' ' then "" else [text[0]] + FirstWord(text[1..])
  }

  /** The word a negation must stand before. */
  function Negated(following: Token): string {
    var matched := following.matched;
    FirstWord(if matched.Some? && matched.value != "" then matched.value else following.text)
  }

  /** The page does not say the negation before the word that follows it on the receipt. */
  predicate IsDemoted(page: Page, tokens: seq<Token>, i: nat) {
    && i + 1 < |tokens| && tokens[i].text in NEGATIONS && tokens[i].kind != JoinedTokenPrefix
    && page.span(tokens[i].text + Negated(tokens[i + 1])) == None
  }

  method DemoteNegations(page: Page, before: seq<Token>) returns (tokens: seq<Token>)
    requires forall t | t in before :: t.sources == []
    ensures |tokens| == |before|
    ensures forall i | 0 <= i < |tokens| ::
              tokens[i] == if IsDemoted(page, before, i) then NotFound(before[i].text) else before[i]
  {
    tokens := before;
    if |before| < 2 { return; }
    for k := 0 to |before| - 1
      invariant |tokens| == |before|
      invariant forall i | 0 <= i < |tokens| ::
                  tokens[i] == if i < k && IsDemoted(page, before, i) then NotFound(before[i].text) else before[i]
    {
      var qualifier, following := tokens[k], tokens[k + 1];
      assert before[k] in before;
      if qualifier.text in NEGATIONS && qualifier.kind != JoinedTokenPrefix
         && page.span(qualifier.text + Negated(following)) == None
      {
        tokens := tokens[k := qualifier.(kind := Unmatched, matched := None, weight := 0.0)];
      }
    }
  }

  /** A fat percentage and whether the page has it. */
  datatype Percentage = Percentage(text: string, found: bool)

  function PercentageToken(p: Percentage): Token {
    if p.found then Found(p.text + "%", ExactPercentage, p.text + "%") else NotFound(p.text + "%")
  }

  /** The explanation of each printed token alone. */
  function Alone(page: Page, texts: seq<string>): seq<Token> {
    seq(|texts|, i requires 0 <= i < |texts| => Explain(page, i, texts[i]))
  }

  function Spanned(page: Page, texts: seq<string>): seq<Token> {
    var alone := Alone(page, texts);
    seq(|alone|, i requires 0 <= i < |alone| => AfterJoining(page, alone, |alone|, i))
  }

  function Demoted(page: Page, texts: seq<string>): seq<Token> {
    var spanned := Spanned(page, texts);
    seq(|spanned|, i requires 0 <= i < |spanned| =>
      if IsDemoted(page, spanned, i) then NotFound(spanned[i].text) else spanned[i])
  }

  function PercentageTokens(percentages: seq<Percentage>): seq<Token> {
    seq(|percentages|, i requires 0 <= i < |percentages| => PercentageToken(percentages[i]))
  }

  /** The tokens of a line with their explanations. */
  function Matched(page: Page, texts: seq<string>, percentages: seq<Percentage>): seq<Token> {
    Demoted(page, texts) + PercentageTokens(percentages)
  }

  method MatchTokens(page: Page, texts: seq<string>, percentages: seq<Percentage>) returns (tokens: seq<Token>)
    ensures tokens == Matched(page, texts, percentages)
  {
    hide Explain, AfterJoining, IsDemoted, PercentageToken;
    tokens := [];
    for i := 0 to |texts|
      invariant tokens == Alone(page, texts)[..i]
    {
      tokens := tokens + [Explain(page, i, texts[i])];
    }
    assert tokens == Alone(page, texts);
    AloneIsFresh(page, texts);
    tokens := JoinSpans(page, tokens);
    assert tokens == Spanned(page, texts);
    SpannedFacts(page, texts);
    tokens := DemoteNegations(page, tokens);
    assert tokens == Demoted(page, texts);
    for i := 0 to |percentages|
      invariant tokens == Demoted(page, texts) + PercentageTokens(percentages)[..i]
    {
      tokens := tokens + [PercentageToken(percentages[i])];
    }
  }

  /** Fresh from matching: weighted, and not resolved yet. */
  predicate IsFresh(t: Token) {
    IsWeighted(t) && t.kind != ObservedGlyph && t.sources == []
  }

  lemma AloneIsFresh(page: Page, texts: seq<string>)
    ensures forall t | t in Alone(page, texts) :: IsFresh(t)
  {
  }

  lemma SpannedFacts(page: Page, texts: seq<string>)
    ensures |Spanned(page, texts)| == |texts| && forall t | t in Spanned(page, texts) :: IsFresh(t)
    ensures forall i | 0 <= i < |texts| ::
              (Spanned(page, texts)[i].kind != Unmatched <==>
               Alone(page, texts)[i].kind != Unmatched || IsInSpan(page, Alone(page, texts), i))
  {
    hide Explain, IsInSpan;
    AloneIsFresh(page, texts);
    var alone := Alone(page, texts);
    forall i | 0 <= i < |texts|
      ensures IsFresh(AfterJoining(page, alone, |alone|, i))
      ensures Spanned(page, texts)[i].kind != Unmatched <==> alone[i].kind != Unmatched || IsInSpan(page, alone, i)
    {
      assert alone[i] in alone;
      JoiningExplains(page, alone, i);
    }
  }

  /**
   Every printed token is explained, alone or in a span; no negation lacks its word on the page; and the page has
   every percentage.
   */
  predicate IsAccounted(page: Page, texts: seq<string>, percentages: seq<Percentage>) {
    && (forall i | 0 <= i < |texts| ::
          && (Alone(page, texts)[i].kind != Unmatched || IsInSpan(page, Alone(page, texts), i))
          && !IsDemoted(page, Spanned(page, texts), i))
    && (forall p | p in percentages :: p.found)
  }

  /**
   All explanations weigh what their kinds do, and together they are complete exactly when the line is accounted for.
   */
  lemma MatchedExactlyWhen(page: Page, texts: seq<string>, percentages: seq<Percentage>)
    ensures var tokens := Matched(page, texts, percentages);
            && (forall t | t in tokens :: IsFresh(t))
            && (Explained(tokens) <==> IsAccounted(page, texts, percentages))
  {
    hide AfterJoining, IsDemoted, IsInSpan, Alone, Spanned;
    SpannedFacts(page, texts);
    var spanned, demoted, rates := Spanned(page, texts), Demoted(page, texts), PercentageTokens(percentages);
    assert Explained(demoted + rates) <==> Explained(demoted) && Explained(rates);
    assert Explained(rates) <==> forall p | p in percentages :: p.found by {
      RatesExplained(percentages);
    }
    assert Explained(demoted) <==>
           forall i | 0 <= i < |texts| :: spanned[i].kind != Unmatched && !IsDemoted(page, spanned, i) by {
      if Explained(demoted) {
        forall i | 0 <= i < |texts|
          ensures spanned[i].kind != Unmatched && !IsDemoted(page, spanned, i)
        {
          assert demoted[i] in demoted;
        }
      }
    }
  }

  lemma RatesExplained(percentages: seq<Percentage>)
    ensures Explained(PercentageTokens(percentages)) <==> forall p | p in percentages :: p.found
    ensures forall t | t in PercentageTokens(percentages) :: IsFresh(t)
  {
    var rates := PercentageTokens(percentages);
    if Explained(rates) {
      forall i | 0 <= i < |percentages|
        ensures percentages[i].found
      {
        assert rates[i] in rates;
      }
    }
  }

  function Total(tokens: seq<Token>): real {
    if tokens == [] then 0.0 else Total(tokens[..|tokens| - 1]) + tokens[|tokens| - 1].weight
  }

  function Min(a: real, b: real): real {
    if a < b then a else b
  }

  function Max(a: real, b: real): real {
    if a < b then b else a
  }

  /** The mean weight, from two tokens on; an unmatched token keeps it below the threshold. */
  function TokenScore(tokens: seq<Token>): real {
    var mean := if |tokens| >= 2 then Total(tokens) / |tokens| as real else 0.0;
    if Explained(tokens) then mean else Min(mean, 0.84)
  }

  /** What is known about product codes. */
  datatype Codes = Codes(exact: bool, conflict: bool)

  datatype Evidence = Evidence(tokens: seq<Token>, productPage: bool, conflict: bool, confidence: real)

  /** A receipt line against a page; `barcode` is a printed barcode, without a product code, that the page has. */
  datatype Line = Line(texts: seq<string>, percentages: seq<Percentage>, codes: Codes, wrongRetailer: bool,
                       discount: bool, barcode: bool, productPage: bool)

  /** The scoring part of `candidate_evidence`. */
  function Score(tokens: seq<Token>, codes: Codes, productPage: bool): Evidence {
    var corroborated := codes.exact && tokens != [] && forall t | t in tokens :: t.weight >= THRESHOLD;
    var score := if corroborated then Max(TokenScore(tokens), 0.95) else TokenScore(tokens);
    Evidence(tokens, productPage, codes.conflict, if codes.conflict || !productPage then 0.0 else score)
  }

  lemma {:induction false} TotalOfExplained(tokens: seq<Token>)
    requires AreWeighted(tokens) && Explained(tokens)
    ensures THRESHOLD * |tokens| as real <= Total(tokens) <= |tokens| as real
  {
    if tokens != [] {
      var n := |tokens| - 1;
      assert tokens[n] in tokens && tokens[n].kind != Unmatched;
      ExplainedWeighs(tokens[n]);
      TotalOfExplained(tokens[..n]);
      assert |tokens| as real == n as real + 1.0;
    }
  }

  /** With two or more tokens the score reaches the threshold exactly when every token is explained. */
  lemma ScoreExactlyWhen(tokens: seq<Token>)
    requires AreWeighted(tokens) && |tokens| >= 2
    ensures TokenScore(tokens) >= THRESHOLD <==> Explained(tokens)
    ensures Explained(tokens) ==> TokenScore(tokens) <= 1.0
  {
    hide Total, Weight;
    if Explained(tokens) {
      TotalOfExplained(tokens);
      MeanIsBetween(Total(tokens), |tokens|);
    }
  }

  lemma MeanIsBetween(total: real, n: nat)
    requires n > 0 && THRESHOLD * n as real <= total <= n as real
    ensures THRESHOLD <= total / n as real <= 1.0
  {
    var size := n as real;
    assert size * (total / size) == total;
  }

  /** The confidence reaches the threshold exactly when the evidence is complete. */
  lemma ScoredExactlyWhen(tokens: seq<Token>, codes: Codes, productPage: bool)
    requires AreWeighted(tokens)
    ensures Score(tokens, codes, productPage).confidence >= THRESHOLD
       <==> && productPage && !codes.conflict && Explained(tokens)
            && (|tokens| >= 2 || (codes.exact && |tokens| == 1))
  {
    hide Total, Weight, IsWeighted;
    if |tokens| >= 2 {
      ScoreExactlyWhen(tokens);
    }
    forall t | t in tokens
      ensures t.weight >= THRESHOLD <==> t.kind != Unmatched
    {
      ExplainedWeighs(t);
    }
  }

  /** `candidate_evidence` without its early exits reports the matched tokens and their score. */
  method CandidateEvidence(page: Page, line: Line) returns (e: Evidence)
    ensures e.tokens == if line.wrongRetailer || line.discount || line.barcode then []
                        else Matched(page, line.texts, line.percentages)
    ensures e.productPage == (line.productPage && !line.wrongRetailer)
    ensures e.conflict == (line.codes.conflict && !line.wrongRetailer && !line.discount && !line.barcode)
    ensures AreWeighted(e.tokens) && Unresolved(e.tokens)
    ensures e.confidence >= THRESHOLD <==> IsConfident(page, line)
    // The confidence itself.
    ensures line.wrongRetailer || line.discount || !line.productPage ==> e.confidence == 0.0
    ensures line.barcode && !line.wrongRetailer && !line.discount && line.productPage ==> e.confidence == 1.0
    ensures e.conflict || (e.tokens == [] && !line.barcode) ==> e.confidence == 0.0
    ensures e.tokens != [] && line.productPage && !e.conflict ==>
              var mean := if |e.tokens| >= 2 then Total(e.tokens) / |e.tokens| as real else 0.0;
              if !Explained(e.tokens) then e.confidence == (if mean < 0.84 then mean else 0.84)
              else if line.codes.exact then e.confidence == (if mean < 0.95 then 0.95 else mean)
              else e.confidence == mean
  {
    if line.wrongRetailer { return Evidence([], false, false, 0.0); }
    if line.discount { return Evidence([], line.productPage, false, 0.0); }
    if line.barcode { return Evidence([], line.productPage, false, if line.productPage then 1.0 else 0.0); }
    var tokens := MatchTokens(page, line.texts, line.percentages);
    e := Score(tokens, line.codes, line.productPage);
    MatchedExactlyWhen(page, line.texts, line.percentages);
    hide IsAccounted, Matched, Weight, Total;
    forall t | t in tokens
      ensures t.weight >= THRESHOLD <==> t.kind != Unmatched
    {
      ExplainedWeighs(t);
    }
    ScoredExactlyWhen(tokens, line.codes, line.productPage);
  }

  /** The page shows the barcode, or accounts for two tokens, or for one beside an exact product code. */
  predicate IsConfident(page: Page, line: Line) {
    && !line.wrongRetailer && !line.discount && line.productPage
    && (line.barcode
        || (&& !line.codes.conflict && IsAccounted(page, line.texts, line.percentages)
            && var n := |line.texts| + |line.percentages|; n >= 2 || (line.codes.exact && n == 1)))
  }

  // Resolving one unmatched token from OCR observations.

  const CONFUSIONS := {('m', 'n'), ('n', 'm'), ('i', 'l'), ('l', 'i'), ('c', 'o'), ('o', 'c')}

  function Differences(a: string, b: string): seq<(char, char)>
    requires |a| == |b|
  {
    if a == [] then []
    else Differences(a[..|a| - 1], b[..|b| - 1]) + if a[|a| - 1] == b[|b| - 1] then [] else [(a[|a| - 1], b[|b| - 1])]
  }

  /** The two words differ in exactly one place, in two glyphs that OCR is known to confuse. */
  predicate OneGlyphApart(a: string, b: string) {
    |a| == |b| && exists i :: 0 <= i < |a| && ApartAt(a, b, i)
  }

  predicate ApartAt(a: string, b: string, i: nat)
    requires |a| == |b| && i < |a|
  {
    (a[i], b[i]) in CONFUSIONS && forall j | 0 <= j < |a| && j != i :: a[j] == b[j]
  }

  /** Looking at the list of differences decides this. */
  lemma {:induction false} DifferencesDecide(a: string, b: string)
    requires |a| == |b|
    ensures Differences(a, b) == [] <==> a == b
    ensures |Differences(a, b)| == 1 && Differences(a, b)[0] in CONFUSIONS <==> OneGlyphApart(a, b)
  {
    if a == [] {
      assert Differences(a, b) == [] && !OneGlyphApart(a, b);
    } else {
      var n := |a| - 1;
      DifferencesDecide(a[..n], b[..n]);
      DifferencesAppend(a[..n], b[..n], a[n], b[n]);
      OneMoreLetter(a[..n], b[..n], a[n], b[n]);
      hide Differences, OneGlyphApart;
      assert a == a[..n] + [a[n]] && b == b[..n] + [b[n]];
    }
  }

  lemma DifferencesAppend(a: string, b: string, x: char, y: char)
    requires |a| == |b|
    ensures Differences(a + [x], b + [y]) == if x == y then Differences(a, b) else Differences(a, b) + [(x, y)]
  {
    assert (a + [x])[..|a|] == a && (b + [y])[..|b|] == b;
  }

  lemma ApartBefore(a: string, b: string, x: char, y: char, i: nat)
    requires |a| == |b| && i < |a|
    ensures ApartAt(a + [x], b + [y], i) <==> ApartAt(a, b, i) && x == y
  {
    var c, d, n := a + [x], b + [y], |a|;
    assert c[n] == x && d[n] == y && forall j | 0 <= j < n :: c[j] == a[j] && d[j] == b[j];
    if ApartAt(c, d, i) {
      forall j | 0 <= j < n && j != i
        ensures a[j] == b[j]
      {
        assert c[j] == d[j];
      }
    }
  }

  lemma OneMoreLetter(a: string, b: string, x: char, y: char)
    requires |a| == |b|
    ensures OneGlyphApart(a + [x], b + [y]) <==>
            if x == y then OneGlyphApart(a, b) else a == b && (x, y) in CONFUSIONS
  {
    var c, d, n := a + [x], b + [y], |a|;
    forall i | 0 <= i < n
      ensures ApartAt(c, d, i) <==> ApartAt(a, b, i) && x == y
    {
      ApartBefore(a, b, x, y, i);
    }
    assert ApartAt(c, d, n) <==> a == b && (x, y) in CONFUSIONS by {
      assert c[n] == x && d[n] == y;
      if ApartAt(c, d, n) {
        assert forall j | 0 <= j < n :: a[j] == c[j] == d[j] == b[j];
      }
    }
    assert (x, x) !in CONFUSIONS;
  }

  /** A retained observation: whether its kind and text qualify it, and its own tokens scored on the same product. */
  datatype Source = Source(id: string, qualifies: bool, tokens: seq<Token>)

  predicate IsWord(text: string) {
    3 <= |text| <= 10 && IsAlpha(text)
  }

  /** The observation reads the token with one confusable glyph changed, and that reading is explained. */
  predicate Resolves(source: Source, text: string) {
    source.qualifies && IsWord(text)
    && exists o :: o in source.tokens && o.kind != Unmatched && OneGlyphApart(text, o.text)
  }

  /** The observations that resolve a token, in order, each named once. */
  function Resolving(sources: seq<Source>, text: string): seq<string> {
    if sources == [] then []
    else
      var before, last := Resolving(sources[..|sources| - 1], text), sources[|sources| - 1];
      if Resolves(last, text) && last.id !in before then before + [last.id] else before
  }

  /** What the observations make of one token. */
  predicate IsResolved(t: Token, before: Token, sources: seq<Source>) {
    if before.kind == Unmatched && Resolving(sources, before.text) != []
    then t == Token(before.text, ObservedGlyph, t.matched, THRESHOLD, Resolving(sources, before.text))
    else t == before
  }

  method ResolveToken(t: Token, source: Source, ghost before: Token, ghost earlier: seq<Source>) returns (r: Token)
    requires IsResolved(t, before, earlier) && source.qualifies && before.kind != ObservedGlyph
    requires before.kind == Unmatched ==> before.sources == []
    ensures IsResolved(r, before, earlier + [source])
  {
    assert (earlier + [source])[..|earlier|] == earlier;
    r := t;
    if !(t.kind == Unmatched || t.kind == ObservedGlyph) || !IsWord(t.text) { return; }
    for i := 0 to |source.tokens|
      invariant r == t
      invariant forall j | 0 <= j < i ::
                  !(source.tokens[j].kind != Unmatched && OneGlyphApart(t.text, source.tokens[j].text))
    {
      var o := source.tokens[i];
      if |o.text| == |t.text| { DifferencesDecide(t.text, o.text); }
      if |o.text| == |t.text| && |Differences(t.text, o.text)| == 1 && Differences(t.text, o.text)[0] in CONFUSIONS
         && o.kind != Unmatched
      {
        var ids := if source.id in t.sources then t.sources else t.sources + [source.id];
        assert Resolves(source, t.text);
        return Token(t.text, ObservedGlyph, o.matched, THRESHOLD, ids);
      }
    }
    assert !Resolves(source, t.text);
  }

  /** Fresh from matching: no token has been resolved yet. */
  predicate Unresolved(tokens: seq<Token>) {
    forall t | t in tokens :: t.kind != ObservedGlyph && t.sources == []
  }

  predicate AreResolved(tokens: seq<Token>, before: seq<Token>, sources: seq<Source>) {
    |tokens| == |before| && forall i | 0 <= i < |tokens| :: IsResolved(tokens[i], before[i], sources)
  }

  method ResolveTokens(before: seq<Token>, sources: seq<Source>) returns (tokens: seq<Token>)
    requires Unresolved(before)
    ensures AreResolved(tokens, before, sources)
  {
    tokens := before;
    hide IsResolved;
    forall i | 0 <= i < |before|
      ensures IsResolved(before[i], before[i], [])
    {
      NothingResolved(before[i]);
    }
    for s := 0 to |sources|
      invariant AreResolved(tokens, before, sources[..s])
    {
      assert sources[..s + 1] == sources[..s] + [sources[s]];
      if !sources[s].qualifies {
        forall i | 0 <= i < |tokens|
          ensures IsResolved(tokens[i], before[i], sources[..s + 1])
        {
          DoesNotQualify(tokens[i], before[i], sources[..s], sources[s]);
        }
        continue;
      }
      for i := 0 to |tokens|
        invariant |tokens| == |before|
        invariant forall j | 0 <= j < |tokens| ::
                    IsResolved(tokens[j], before[j], if j < i then sources[..s + 1] else sources[..s])
      {
        assert before[i] in before;
        var r := ResolveToken(tokens[i], sources[s], before[i], sources[..s]);
        tokens := tokens[i := r];
      }
    }
    assert sources[..|sources|] == sources;
  }

  lemma NothingResolved(t: Token)
    ensures IsResolved(t, t, [])
  {
  }

  lemma DoesNotQualify(t: Token, before: Token, sources: seq<Source>, last: Source)
    requires IsResolved(t, before, sources) && !last.qualifies
    ensures IsResolved(t, before, sources + [last])
  {
    assert (sources + [last])[..|sources|] == sources;
  }

  function CountUnmatched(tokens: seq<Token>): nat {
    if tokens == [] then 0
    else CountUnmatched(tokens[..|tokens| - 1]) + if tokens[|tokens| - 1].kind == Unmatched then 1 else 0
  }

  /**
   `candidate_receipt_evidence`: only a single unmatched token of a product page without a code conflict is
   reconsidered, and only a qualifying observation that records the glyph explains it.
   */
  method Rescore(e: Evidence, sources: seq<Source>) returns (r: Evidence)
    requires Unresolved(e.tokens) && AreWeighted(e.tokens)
    ensures AreWeighted(r.tokens) && r.productPage == e.productPage && r.conflict == e.conflict
    ensures if e.conflict || !e.productPage || CountUnmatched(e.tokens) != 1 then r == e
            else AreResolved(r.tokens, e.tokens, sources) && r.confidence == TokenScore(r.tokens)
    ensures !e.conflict && e.productPage && CountUnmatched(e.tokens) == 1 ==>
              var mean := if |r.tokens| >= 2 then Total(r.tokens) / |r.tokens| as real else 0.0;
              r.confidence == if Explained(r.tokens) || mean < 0.84 then mean else 0.84
  {
    if e.conflict || !e.productPage || CountUnmatched(e.tokens) != 1 { return e; }
    var tokens := ResolveTokens(e.tokens, sources);
    forall i | 0 <= i < |tokens|
      ensures IsWeighted(tokens[i])
    {
      assert e.tokens[i] in e.tokens;
    }
    r := e.(tokens := tokens, confidence := TokenScore(tokens));
  }

  /** Resolution explains everything exactly when an observation resolves each unmatched token. */
  lemma ResolvedExactlyWhen(tokens: seq<Token>, before: seq<Token>, sources: seq<Source>)
    requires AreResolved(tokens, before, sources)
    ensures Explained(tokens)
       <==> forall t | t in before && t.kind == Unmatched :: exists s :: s in sources && Resolves(s, t.text)
  {
    hide Resolves;
    forall i | 0 <= i < |tokens|
      ensures tokens[i].kind == Unmatched
         <==> before[i].kind == Unmatched && forall s | s in sources :: !Resolves(s, before[i].text)
    {
      ResolvingIsSome(sources, before[i].text);
    }
    if Explained(tokens) {
      forall t | t in before && t.kind == Unmatched
        ensures exists s :: s in sources && Resolves(s, t.text)
      {
        var i :| 0 <= i < |before| && before[i] == t;
        assert tokens[i] in tokens;
      }
    } else {
      var i :| 0 <= i < |tokens| && tokens[i].kind == Unmatched;
      assert before[i] in before;
    }
  }

  lemma {:induction false} ResolvingIsSome(sources: seq<Source>, text: string)
    ensures Resolving(sources, text) == [] <==> forall s | s in sources :: !Resolves(s, text)
  {
    hide Resolves;
    if sources != [] {
      ResolvingIsSome(sources[..|sources| - 1], text);
      assert sources == sources[..|sources| - 1] + [sources[|sources| - 1]];
    }
  }

  /** After re-scoring, too, the threshold means that every token is explained. */
  method ScoreAndRescore(page: Page, line: Line, sources: seq<Source>) returns (r: Evidence)
    ensures r.confidence >= THRESHOLD ==> Explained(r.tokens) && line.productPage
    ensures var tokens := Matched(page, line.texts, line.percentages);
            (r.confidence >= THRESHOLD <==>
             if CountUnmatched(tokens) == 1 && !line.barcode then
               && line.productPage && !line.wrongRetailer && !line.discount && !line.codes.conflict && |tokens| >= 2
               && forall t | t in tokens && t.kind == Unmatched :: exists s :: s in sources && Resolves(s, t.text)
             else IsConfident(page, line))
  {
    hide AreResolved, Resolves, AreWeighted, Unresolved, TokenScore, IsAccounted, Matched;
    var e := CandidateEvidence(page, line);
    r := Rescore(e, sources);
    MatchedExactlyWhen(page, line.texts, line.percentages);
    NoneUnmatched(Matched(page, line.texts, line.percentages));
    if !e.conflict && e.productPage && CountUnmatched(e.tokens) == 1 {
      ResolvedExactlyWhen(r.tokens, e.tokens, sources);
      if |r.tokens| >= 2 {
        ScoreExactlyWhen(r.tokens);
      } else {
        TooFewTokens(r.tokens);
      }
    }
  }

  lemma {:induction false} NoneUnmatched(tokens: seq<Token>)
    ensures CountUnmatched(tokens) == 0 <==> Explained(tokens)
  {
    if tokens != [] {
      NoneUnmatched(tokens[..|tokens| - 1]);
      assert tokens == tokens[..|tokens| - 1] + [tokens[|tokens| - 1]];
    }
  }

  lemma TooFewTokens(tokens: seq<Token>)
    requires |tokens| < 2
    ensures TokenScore(tokens) < THRESHOLD
  {
  }
}
