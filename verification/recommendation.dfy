/** When a product match is recommended: independent provider families agree on cited, threshold-passing evidence. */
module Recommendation {
  import opened Options

  datatype Candidate = Candidate(id: string, title: string, confidence: real, productPage: bool, support: set<string>)

  /** A field that older reviews may lack. */
  datatype Field = Absent | Present(value: Option<string>)

  datatype Output = Output(choice: Option<string>, sourceIds: set<string>, product: Field, title: Field)

  datatype Review = Review(profile: string, provider: string, success: bool, output: Output)

  datatype Check = Pass | Fail | Unknown

  type Validations = map<string, Check>

  datatype Reason =
    | IncompleteResults | ContextTruncated | DisagreementOrAbstention | TooFewFamilies | ArithmeticRequiresReview
    | InsufficientEvidence | MissingSupport | MissingCitations | TitleMismatch | ArithmeticNotVerified

  datatype Decision = Decision(recommended: bool, choice: Option<string>, families: set<string>, reasons: seq<Reason>)

  datatype Fault = Fault(stage: string, kind: string, profile: Option<string>, candidate: Option<string>)

  function Successful(reviews: seq<Review>): seq<Review> {
    if reviews == [] then []
    else
      var last := reviews[|reviews| - 1];
      Successful(reviews[..|reviews| - 1]) + if last.success then [last] else []
  }

  function Choices(reviews: seq<Review>): set<Option<string>> {
    set r | r in reviews && r.success :: r.output.choice
  }

  /** The provider families that selected a product. */
  function Families(reviews: seq<Review>): set<string> {
    set r | r in reviews && r.success && r.output.choice.Some? :: r.provider
  }

  /** The review names the product and one of its supporting observations. */
  predicate Cites(r: Review, c: Candidate) {
    && (match r.output.product
        case Present(product) => product == Some(c.id)
        case Absent => c.id in r.output.sourceIds)
    && r.output.sourceIds * c.support != {}
  }

  predicate TitleFits(r: Review, c: Candidate) {
    r.output.title.Present? ==> r.output.title.value == Some(c.title)
  }

  /** The first candidate with this identifier. */
  function Find(candidates: seq<Candidate>, id: string): (found: Option<Candidate>)
    ensures found.Some? ==> found.value in candidates && found.value.id == id
    ensures found == None <==> forall c | c in candidates :: c.id != id
  {
    if candidates == [] then None
    else if candidates[0].id == id then Some(candidates[0])
    else Find(candidates[1..], id)
  }

  /** All successful reviews chose this one product, with evidence that carries the choice. */
  predicate Agreed(candidates: seq<Candidate>, reviews: seq<Review>, threshold: real, id: string) {
    && Choices(reviews) == {Some(id)}
    && Find(candidates, id).Some?
    && Carries(Find(candidates, id).value, reviews, threshold)
  }

  predicate Carries(c: Candidate, reviews: seq<Review>, threshold: real) {
    && c.confidence >= threshold && c.productPage && c.support != {}
    && forall r | r in reviews && r.success :: Cites(r, c) && TitleFits(r, c)
  }

  /** Everything a decision depends on. */
  datatype Case = Case(candidates: seq<Candidate>, reviews: seq<Review>, validations: Validations, threshold: real,
                       errors: seq<Fault>, complete: bool, minFamilies: int)

  predicate Recommendable(k: Case) {
    && k.errors == [] && (forall r | r in k.reviews :: r.success)
    && k.complete
    && |Families(k.reviews)| >= k.minFamilies
    && (forall check | check in k.validations :: k.validations[check] != Fail)
    && exists choice :: choice in Choices(k.reviews) && choice.Some?
                     && Agreed(k.candidates, k.reviews, k.threshold, choice.value)
  }

  lemma {:induction false} SuccessfulReviews(reviews: seq<Review>)
    ensures forall r :: r in Successful(reviews) <==> r in reviews && r.success
    ensures |Successful(reviews)| <= |reviews|
    ensures |Successful(reviews)| == |reviews| <==> forall r | r in reviews :: r.success
  {
    if reviews != [] {
      var before, last := reviews[..|reviews| - 1], reviews[|reviews| - 1];
      SuccessfulReviews(before);
      assert reviews == before + [last];
    }
  }

  predicate Distinct(reasons: seq<Reason>) {
    forall i, j | 0 <= i < j < |reasons| :: reasons[i] != reasons[j]
  }

  /** The first fault in how the reviews cite the candidate: citations come before titles, review by review. */
  function CitationFault(reviews: seq<Review>, c: Candidate): (fault: Option<Reason>)
    ensures fault == None <==> forall r | r in reviews :: Cites(r, c) && TitleFits(r, c)
    ensures fault.Some? ==> fault.value == MissingCitations || fault.value == TitleMismatch
  {
    if reviews == [] then None
    else if !Cites(reviews[0], c) then Some(MissingCitations)
    else if !TitleFits(reviews[0], c) then Some(TitleMismatch)
    else CitationFault(reviews[1..], c)
  }

  method CheckCitations(reviews: seq<Review>, c: Candidate) returns (fault: Option<Reason>)
    ensures fault == CitationFault(reviews, c)
  {
    assert reviews[0..] == reviews;
    for i := 0 to |reviews|
      invariant CitationFault(reviews, c) == CitationFault(reviews[i..], c)
    {
      assert reviews[i..][1..] == reviews[i + 1..];
      if !Cites(reviews[i], c) { return Some(MissingCitations); }
      if !TitleFits(reviews[i], c) { return Some(TitleMismatch); }
    }
    fault := None;
  }

  /** The only choice, when there is only one. */
  ghost function Sole(choices: set<Option<string>>): Option<string> {
    if |choices| == 1 then var choice :| choice in choices; choice else None
  }

  lemma SoleChoice(choices: set<Option<string>>, choice: Option<string>)
    requires choice in choices
    ensures |choices| == 1 <==> choices == {choice}
    ensures |choices| == 1 ==> Sole(choices) == choice
  {
    if |choices| == 1 {
      assert |choices - {choice}| == 0;
      assert choices == {choice};
    }
  }

  ghost function Chosen(candidates: seq<Candidate>, reviews: seq<Review>): Option<Candidate> {
    var choice := Sole(Choices(reviews));
    if choice.Some? then Find(candidates, choice.value) else None
  }

  /** When each reason is given. */
  ghost predicate Applies(reason: Reason, k: Case) {
    var chosen := Chosen(k.candidates, k.reviews);
    match reason
    case IncompleteResults => k.errors != [] || |Successful(k.reviews)| != |k.reviews|
    case ContextTruncated => !k.complete
    case DisagreementOrAbstention => |Choices(k.reviews)| != 1 || None in Choices(k.reviews)
    case TooFewFamilies => |Families(k.reviews)| < k.minFamilies
    case ArithmeticRequiresReview => exists check :: check in k.validations && k.validations[check] == Fail
    case InsufficientEvidence => chosen == None || chosen.value.confidence < k.threshold || !chosen.value.productPage
    case MissingSupport => chosen.Some? && chosen.value.support == {}
    case MissingCitations => chosen.Some? && CitationFault(Successful(k.reviews), chosen.value) == Some(reason)
    case TitleMismatch => chosen.Some? && CitationFault(Successful(k.reviews), chosen.value) == Some(reason)
    case ArithmeticNotVerified => false
  }

  function Noted(reasons: seq<Reason>, applies: bool, reason: Reason): seq<Reason> {
    if applies then reasons + [reason] else reasons
  }

  const ORDER := [IncompleteResults, ContextTruncated, DisagreementOrAbstention, TooFewFamilies,
                  ArithmeticRequiresReview,
                  InsufficientEvidence, MissingSupport, MissingCitations, TitleMismatch]

  /** The reasons that apply among the first `n`. */
  ghost function Noting(k: Case, n: nat): seq<Reason>
    requires n <= |ORDER|
  {
    if n == 0 then [] else Noted(Noting(k, n - 1), Applies(ORDER[n - 1], k), ORDER[n - 1])
  }

  lemma {:induction false} NotedReasons(k: Case, n: nat)
    requires n <= |ORDER|
    ensures forall reason :: reason in Noting(k, n) <==> reason in ORDER[..n] && Applies(reason, k)
    ensures Distinct(Noting(k, n))
  {
    hide Applies;
    if n > 0 {
      NotedReasons(k, n - 1);
      assert ORDER[..n] == ORDER[..n - 1] + [ORDER[n - 1]];
    }
  }

  /** The reasons given are those that apply, each once. */
  lemma ReasonsAreExact(k: Case)
    ensures forall reason :: reason in Noting(k, |ORDER|) <==> Applies(reason, k)
    ensures Distinct(Noting(k, |ORDER|))
  {
    NotedReasons(k, |ORDER|);
    forall reason: Reason
      ensures reason in ORDER[..|ORDER|] || reason == ArithmeticNotVerified
    {
      assert ORDER[..|ORDER|] == ORDER;
      assert reason in ORDER || reason == ArithmeticNotVerified by {
        match reason
        case IncompleteResults => assert ORDER[0] == reason;
        case ContextTruncated => assert ORDER[1] == reason;
        case DisagreementOrAbstention => assert ORDER[2] == reason;
        case TooFewFamilies => assert ORDER[3] == reason;
        case ArithmeticRequiresReview => assert ORDER[4] == reason;
        case InsufficientEvidence => assert ORDER[5] == reason;
        case MissingSupport => assert ORDER[6] == reason;
        case MissingCitations => assert ORDER[7] == reason;
        case TitleMismatch => assert ORDER[8] == reason;
        case ArithmeticNotVerified =>
      }
    }
  }

  /** The checks that come before looking at the chosen candidate. */
  method CheckAgreement(k: Case) returns (reasons: seq<Reason>, choice: Option<string>)
    ensures reasons == Noting(k, 5)
    ensures choice == Sole(Choices(k.reviews))
  {
    hide CitationFault, Find, Families, Choices, Successful, Chosen;
    var choices := Choices(k.reviews);
    reasons := [];
    if k.errors != [] || |Successful(k.reviews)| != |k.reviews| { reasons := reasons + [IncompleteResults]; }
    assert reasons == Noting(k, 1);
    if !k.complete { reasons := reasons + [ContextTruncated]; }
    assert reasons == Noting(k, 2);
    if |choices| != 1 || None in choices { reasons := reasons + [DisagreementOrAbstention]; }
    assert reasons == Noting(k, 3);
    if |Families(k.reviews)| < k.minFamilies { reasons := reasons + [TooFewFamilies]; }
    assert reasons == Noting(k, 4);
    if exists check :: check in k.validations && k.validations[check] == Fail {
      reasons := reasons + [ArithmeticRequiresReview];
    }
    choice := None;
    if |choices| == 1 {
      choice :| choice in choices;
      SoleChoice(choices, choice);
    }
  }

  /** `reconcile`: the reasons against a recommendation, in order. */
  method Reconcile(k: Case) returns (decision: Decision)
    ensures decision == Decided(k)
  {
    hide CitationFault, Find, Families, Choices;
    var reasons, choice := CheckAgreement(k);
    var candidate := if choice.Some? then Find(k.candidates, choice.value) else None;
    assert candidate == Chosen(k.candidates, k.reviews);
    hide Chosen, Successful;
    if candidate == None || candidate.value.confidence < k.threshold || !candidate.value.productPage {
      reasons := reasons + [InsufficientEvidence];
    }
    assert reasons == Noting(k, 6);
    if candidate.Some? && candidate.value.support == {} { reasons := reasons + [MissingSupport]; }
    assert reasons == Noting(k, 7);
    var fault := None;
    if candidate.Some? {
      fault := CheckCitations(Successful(k.reviews), candidate.value);
      if fault.Some? { reasons := reasons + [fault.value]; }
    }
    assert reasons == Noted(Noting(k, 8), Applies(TitleMismatch, k), TitleMismatch);
    decision := Decision(reasons == [], choice, Families(k.reviews), reasons);
  }

  ghost function Decided(k: Case): Decision {
    var reasons := Noting(k, |ORDER|);
    Decision(reasons == [], Sole(Choices(k.reviews)), Families(k.reviews), reasons)
  }

  /** A match is recommended exactly when complete, unanimous, cited, threshold-passing evidence supports it. */
  lemma RecommendedExactlyWhen(k: Case)
    ensures Decided(k).recommended <==> Recommendable(k)
  {
    ReasonsAreExact(k);
    SuccessfulReviews(k.reviews);
    assert Decided(k).recommended <==> forall reason :: !Applies(reason, k) by {
      hide Applies;
      var reasons := Noting(k, |ORDER|);
      if reasons != [] {
        assert reasons[0] in reasons;
      }
    }
    if forall reason :: !Applies(reason, k) {
      NoReasonAgainst(k);
    }
    if Recommendable(k) {
      NothingApplies(k);
    }
  }

  lemma NoReasonAgainst(k: Case)
    requires forall reason :: !Applies(reason, k)
    ensures Recommendable(k)
  {
    hide Cites, TitleFits;
    SuccessfulReviews(k.reviews);
    assert !Applies(IncompleteResults, k) && !Applies(ContextTruncated, k) && !Applies(DisagreementOrAbstention, k);
    assert !Applies(TooFewFamilies, k) && !Applies(ArithmeticRequiresReview, k) && !Applies(InsufficientEvidence, k);
    assert !Applies(MissingSupport, k) && !Applies(MissingCitations, k) && !Applies(TitleMismatch, k);
    var choice :| choice in Choices(k.reviews);
    SoleChoice(Choices(k.reviews), choice);
    assert Agreed(k.candidates, k.reviews, k.threshold, choice.value);
  }

  lemma NothingApplies(k: Case)
    requires Recommendable(k)
    ensures forall reason :: !Applies(reason, k)
  {
    hide Cites, TitleFits;
    SuccessfulReviews(k.reviews);
    var choice :| choice in Choices(k.reviews) && choice.Some?
                  && Agreed(k.candidates, k.reviews, k.threshold, choice.value);
    SoleChoice(Choices(k.reviews), choice);
  }

  /** Every family that counts has a review that chose the recommended product and cites it with an observation. */
  lemma FamiliesBackTheProduct(k: Case, family: string) returns (r: Review, c: Candidate)
    requires Recommendable(k) && family in Families(k.reviews)
    ensures r in k.reviews && r.provider == family && r.output.choice == Some(c.id) == Decided(k).choice
    ensures c in k.candidates && Cites(r, c) && c.confidence >= k.threshold && c.productPage
  {
    hide Cites, TitleFits;
    r :| r in k.reviews && r.success && r.output.choice.Some? && r.provider == family;
    var choice :| choice in Choices(k.reviews) && choice.Some?
                  && Agreed(k.candidates, k.reviews, k.threshold, choice.value);
    SoleChoice(Choices(k.reviews), choice);
    assert r.output.choice in Choices(k.reviews);
    c := Find(k.candidates, choice.value).value;
  }

  /** What each reason tells the reader. */
  lemma ReasonsMean(k: Case)
    ensures var reasons := Decided(k).reasons;
            && (IncompleteResults in reasons <==> k.errors != [] || exists r :: r in k.reviews && !r.success)
            && (ContextTruncated in reasons <==> !k.complete)
            && (DisagreementOrAbstention in reasons <==> forall id :: !IsUnanimous(k.reviews, id))
            && (TooFewFamilies in reasons <==> |Families(k.reviews)| < k.minFamilies)
            && (ArithmeticRequiresReview in reasons <==>
                exists check :: check in k.validations && k.validations[check] == Fail)
            && (forall id :: Decided(k).choice == Some(id) <==> IsUnanimous(k.reviews, id))
            && forall id | IsUnanimous(k.reviews, id) ::
                 var found := Find(k.candidates, id);
                 && (InsufficientEvidence in reasons <==>
                     found == None || found.value.confidence < k.threshold || !found.value.productPage)
                 && (MissingSupport in reasons <==> found.Some? && found.value.support == {})
  {
    ReasonsAreExact(k);
    SuccessfulReviews(k.reviews);
    Unanimity(k.reviews);
    hide CitationFault, Choices, IsUnanimous, Sole, Noting, Families, Find;
  }

  lemma Unanimity(reviews: seq<Review>)
    ensures |Choices(reviews)| == 1 && None !in Choices(reviews) <==> exists id :: IsUnanimous(reviews, id)
    ensures forall id :: IsUnanimous(reviews, id) <==> Sole(Choices(reviews)) == Some(id)
  {
    if |Choices(reviews)| == 1 && None !in Choices(reviews) {
      var choice :| choice in Choices(reviews);
      SoleChoice(Choices(reviews), choice);
      UnanimousChoice(reviews, choice.value);
    }
    forall id
      ensures IsUnanimous(reviews, id) <==> Sole(Choices(reviews)) == Some(id)
    {
      UnanimousChoice(reviews, id);
      if Choices(reviews) == {Some(id)} || Sole(Choices(reviews)) == Some(id) {
        SoleChoice(Choices(reviews), Some(id));
      }
    }
  }

  lemma UnanimousChoice(reviews: seq<Review>, id: string)
    ensures IsUnanimous(reviews, id) <==> Choices(reviews) == {Some(id)}
  {
    if IsUnanimous(reviews, id) {
      var r :| r in reviews && r.success;
      assert Some(id) in Choices(reviews);
    }
    if Choices(reviews) == {Some(id)} {
      assert Some(id) in Choices(reviews);
      forall r | r in reviews && r.success
        ensures r.output.choice == Some(id)
      {
        assert r.output.choice in Choices(reviews);
      }
    }
  }

  /** The successful reviews, one at least, all choose this product. */
  predicate IsUnanimous(reviews: seq<Review>, id: string) {
    && (exists r :: r in reviews && r.success)
    && forall r | r in reviews && r.success :: r.output.choice == Some(id)
  }

  /** What a recommendation rests on: every review chose the product, and cites it with one of its observations. */
  lemma RecommendationIsCited(k: Case) returns (c: Candidate)
    requires Decided(k).recommended
    ensures c in k.candidates && Decided(k).choice == Some(c.id) && c.productPage && c.confidence >= k.threshold
    ensures forall r | r in k.reviews ::
              && r.success && r.output.choice == Some(c.id)
              && (exists id :: id in r.output.sourceIds && id in c.support)
              && (if r.output.product.Present? then r.output.product.value == Some(c.id)
                  else c.id in r.output.sourceIds)
              && (r.output.title.Present? ==> r.output.title.value == Some(c.title))
    ensures k.errors == [] && k.complete && |Families(k.reviews)| >= k.minFamilies
    ensures forall check | check in k.validations :: k.validations[check] != Fail
  {
    RecommendedExactlyWhen(k);
    var choice :| choice in Choices(k.reviews) && choice.Some?
                  && Agreed(k.candidates, k.reviews, k.threshold, choice.value);
    SoleChoice(Choices(k.reviews), choice);
    c := Find(k.candidates, choice.value).value;
    forall r | r in k.reviews
      ensures r.success && r.output.choice == Some(c.id) && Cites(r, c) && TitleFits(r, c)
      ensures exists id :: id in r.output.sourceIds && id in c.support
    {
      assert r.output.choice in Choices(k.reviews);
      var id :| id in r.output.sourceIds * c.support;
    }
  }

  lemma SameFamilies(fewer: seq<Review>, more: seq<Review>)
    requires forall r | r in fewer :: r in more
    requires forall r | r in more :: r in fewer || r.provider in Families(fewer)
    ensures Families(more) == Families(fewer)
  {
  }

  lemma SameChoices(fewer: seq<Review>, more: seq<Review>, choice: Option<string>)
    requires forall r | r in fewer :: r in more
    requires forall r | r in more :: r in fewer || r.provider in Families(fewer)
    requires Choices(more) == {choice}
    ensures Choices(fewer) == {choice}
  {
    var chooser :| chooser in more && chooser.success && chooser.output.choice == choice;
    if chooser in fewer {
      assert choice in Choices(fewer);
    } else {
      var voted :| voted in fewer && voted.success && voted.output.choice.Some? && voted.provider == chooser.provider;
      assert voted.output.choice in Choices(fewer) && voted.output.choice in Choices(more);
    }
  }

  lemma FewerReviewsSuffice(k: Case, reviews: seq<Review>)
    requires forall r | r in k.reviews :: r in reviews
    requires forall r | r in reviews :: r in k.reviews || r.provider in Families(k.reviews)
    requires Recommendable(k.(reviews := reviews))
    ensures Recommendable(k)
  {
    hide Cites, TitleFits, Choices, Families;
    var choice :| choice in Choices(reviews) && choice.Some?
                  && Agreed(k.candidates, reviews, k.threshold, choice.value);
    SameFamilies(k.reviews, reviews);
    SameChoices(k.reviews, reviews, choice);
    assert Agreed(k.candidates, k.reviews, k.threshold, choice.value);
  }

  /**
   No vote inflation: reviews added by families that had already selected a product never turn a review into a
   recommendation, wherever they are added.
   */
  lemma NoVoteInflation(k: Case, reviews: seq<Review>)
    requires forall r | r in k.reviews :: r in reviews
    requires forall r | r in reviews :: r in k.reviews || r.provider in Families(k.reviews)
    ensures Decided(k.(reviews := reviews)).recommended ==> Decided(k).recommended
  {
    hide Recommendable, Decided, Families;
    RecommendedExactlyWhen(k);
    RecommendedExactlyWhen(k.(reviews := reviews));
    if Recommendable(k.(reviews := reviews)) {
      FewerReviewsSuffice(k, reviews);
    }
  }
}

/** Which errors of the search for evidence may be set aside once the reviews are in. */
module ErrorRecovery {
  import opened Options
  import opened Recommendation

  predicate ArithmeticPasses(validations: Validations) {
    forall check | check in {"item_arithmetic", "receipt_arithmetic"} ::
      check in validations && validations[check] == Pass
  }

  predicate Recoverable(e: Fault, reviews: seq<Review>) {
    e.stage == "expansion" && e.kind == "IncompleteModelOutput"
    && exists r :: r in reviews && r.success && e.profile == Some(r.profile)
  }

  function Selected(errors: seq<Fault>, picks: Fault -> bool): (selected: seq<Fault>)
    ensures forall e :: e in selected <==> e in errors && picks(e)
    ensures |selected| <= |errors| && (|selected| == |errors| ==> selected == errors)
    ensures selected == errors <==> forall e | e in errors :: picks(e)
    ensures selected == [] <==> forall e | e in errors :: !picks(e)
  {
    if errors == [] then []
    else
      var n := |errors| - 1;
      assert errors == errors[..n] + [errors[n]];
      Selected(errors[..n], picks) + if picks(errors[n]) then [errors[n]] else []
  }

  /** Errors are set aside all together or not at all. */
  predicate AllOrNothing(errors: seq<Fault>, blocking: seq<Fault>, recovered: seq<Fault>) {
    if recovered == [] then blocking == errors else blocking == [] && recovered == errors
  }

  /** `classify_discovery_errors`. */
  method ClassifyDiscovery(k: Case, verified: bool) returns (blocking: seq<Fault>, recovered: seq<Fault>)
    ensures AllOrNothing(k.errors, blocking, recovered)
    ensures recovered != []
       <==> && k.errors != [] && (forall e | e in k.errors :: Recoverable(e, k.reviews))
            && verified && ArithmeticPasses(k.validations)
            && Recommendable(k.(errors := [], minFamilies := 1))
    ensures recovered != [] ==>
              && (forall e | e in k.errors ::
                    e.stage == "expansion" && e.kind == "IncompleteModelOutput"
                    && exists r :: r in k.reviews && r.success && e.profile == Some(r.profile))
              && (forall check | check == "item_arithmetic" || check == "receipt_arithmetic" ::
                    check in k.validations && k.validations[check] == Pass)
  {
    hide Recommendable, Decided;
    var recoverable := Selected(k.errors, e => Recoverable(e, k.reviews));
    blocking := Selected(k.errors, e => e !in recoverable);
    assert blocking == [] <==> recoverable == k.errors;
    if recoverable == [] || !verified || !ArithmeticPasses(k.validations) {
      return k.errors, [];
    }
    var check := k.(errors := blocking, minFamilies := 1);
    var decision := Reconcile(check);
    RecommendedExactlyWhen(check);
    NeedsNoErrors(check);
    if decision.recommended {
      return blocking, recoverable;
    }
    return k.errors, [];
  }

  lemma NeedsNoErrors(k: Case)
    ensures Recommendable(k) ==> k.errors == []
  {
  }

  // The queued variant pools the workers' search results before the final review.

  /** A search result; `explained` when every token of the item is accounted for. */
  datatype Card = Card(candidate: Candidate, explained: bool)

  predicate Eligible(card: Card, threshold: real) {
    card.candidate.productPage && card.candidate.confidence >= threshold && card.candidate.support != {}
      && card.explained
  }

  function Conflict(id: string): Fault {
    Fault("pooled_evidence", "ConflictingRetailerTitle", None, Some(id))
  }

  /** Two of the results for this product disagree about its title. */
  predicate TitlesConflict(found: seq<Card>, id: string) {
    exists a, b :: a in found && b in found && a.candidate.id == id == b.candidate.id
                && a.candidate.title != b.candidate.title
  }

  /** One of the results for this product is stored, and none of them has more confidence. */
  predicate IsBest(cards: map<string, Card>, found: seq<Card>, id: string) {
    && id in cards && cards[id] in found && cards[id].candidate.id == id
    && forall card | card in found && card.candidate.id == id ::
         card.candidate.confidence <= cards[id].candidate.confidence
  }

  predicate Pooled(found: seq<Card>, cards: map<string, Card>, errors: seq<Fault>) {
    && (forall id | id in cards :: IsBest(cards, found, id))
    && (forall card | card in found :: card.candidate.id in cards)
    && (forall e | e in errors :: e.candidate.Some? && e == Conflict(e.candidate.value))
    && (forall id | id in cards :: Conflict(id) in errors <==> TitlesConflict(found, id))
  }

  /** One result per product, and an error for every product with two titles, whatever the order of arrival. */
  method Pool(found: seq<Card>) returns (cards: map<string, Card>, errors: seq<Fault>)
    ensures Pooled(found, cards, errors)
    ensures forall e | e in errors :: e.candidate.value in cards
  {
    cards, errors := map[], [];
    for i := 0 to |found|
      invariant Pooled(found[..i], cards, errors)
      invariant forall e | e in errors :: e.candidate.value in cards
    {
      var card, id := found[i], found[i].candidate.id;
      assert found[..i + 1] == found[..i] + [card];
      OneMoreCard(found[..i], cards, errors, card);
      if id in cards && cards[id].candidate.title != card.candidate.title {
        errors := errors + [Conflict(id)];
      }
      if id !in cards || card.candidate.confidence > cards[id].candidate.confidence {
        cards := cards[id := card];
      }
    }
    assert found[..|found|] == found;
  }

  lemma OneMoreCard(found: seq<Card>, cards: map<string, Card>, errors: seq<Fault>, card: Card)
    requires Pooled(found, cards, errors) && forall e | e in errors :: e.candidate.value in cards
    ensures var id := card.candidate.id;
            var errors' := if id in cards && cards[id].candidate.title != card.candidate.title
                           then errors + [Conflict(id)] else errors;
            var cards' := if id !in cards || card.candidate.confidence > cards[id].candidate.confidence
                          then cards[id := card] else cards;
            Pooled(found + [card], cards', errors')
  {
    hide TitlesConflict, IsBest;
    var id := card.candidate.id;
    forall other | other in cards || other == id
      ensures TitlesConflict(found + [card], other)
         <==> TitlesConflict(found, other)
              || (other == id && id in cards && cards[id].candidate.title != card.candidate.title)
      ensures other !in cards ==> !TitlesConflict(found, other)
    {
      OneMoreTitle(found, cards, card, other);
    }
    forall other | other in cards || other == id
      ensures IsBest(if id !in cards || card.candidate.confidence > cards[id].candidate.confidence
                     then cards[id := card] else cards, found + [card], other)
    {
      OneMoreBest(found, cards, card, other);
    }
    assert id !in cards ==> Conflict(id) !in errors;
  }

  lemma OneMoreTitle(found: seq<Card>, cards: map<string, Card>, card: Card, id: string)
    requires id in cards ==> IsBest(cards, found, id)
    requires id !in cards ==> forall other | other in found :: other.candidate.id != id
    requires id in cards || id == card.candidate.id
    ensures TitlesConflict(found + [card], id)
       <==> TitlesConflict(found, id)
            || (id == card.candidate.id && id in cards && cards[id].candidate.title != card.candidate.title)
    ensures id !in cards ==> !TitlesConflict(found, id)
  {
    if TitlesConflict(found, id) {
      var a, b :| a in found && b in found && a.candidate.id == id == b.candidate.id
                  && a.candidate.title != b.candidate.title;
      assert a in found + [card] && b in found + [card];
    } else if id == card.candidate.id && id in cards {
      assert cards[id] in found + [card] && card in found + [card];
    }
  }

  lemma OneMoreBest(found: seq<Card>, cards: map<string, Card>, card: Card, id: string)
    requires id in cards ==> IsBest(cards, found, id)
    requires card.candidate.id !in cards ==> forall other | other in found :: other.candidate.id != card.candidate.id
    requires id in cards || id == card.candidate.id
    ensures IsBest(if card.candidate.id !in cards
                   || card.candidate.confidence > cards[card.candidate.id].candidate.confidence
                   then cards[card.candidate.id := card] else cards, found + [card], id)
  {
  }

  predicate IsWarning(e: Fault, eligible: set<string>) {
    || (e.stage == "ocr_alternative_search" && e.kind == "HypothesisBudgetExceeded")
    || (e.stage == "pooled_evidence" && e.kind == "ConflictingRetailerTitle"
        && !(e.candidate.Some? && e.candidate.value in eligible))
  }

  /** The queued variant's classification: planned discovery limits and irrelevant conflicts are only warnings. */
  method ClassifyQueued(errors: seq<Fault>, eligible: set<string>, reviews: seq<Review>, profiles: nat, complete: bool)
    returns (blocking: seq<Fault>, recovered: seq<Fault>)
    ensures AllOrNothing(errors, blocking, recovered)
    ensures recovered != []
       <==> && errors != [] && (forall e | e in errors :: IsWarning(e, eligible))
            && complete && |reviews| == profiles && (forall r | r in reviews :: r.success)
  {
    var warnings := Selected(errors, e => IsWarning(e, eligible));
    var remaining := Selected(errors, e => e !in warnings);
    assert remaining == [] <==> warnings == errors;
    recovered := if complete && |reviews| == profiles && (forall r | r in reviews :: r.success) && remaining == []
                 then warnings else [];
    blocking := if recovered != [] then remaining else errors;
  }

  function EligibleIds(cards: map<string, Card>, threshold: real): set<string> {
    set id | id in cards && Eligible(cards[id], threshold)
  }

  /** What the reviewers said and what else is known when the queued decision is taken. */
  datatype Exchange = Exchange(reviews: seq<Review>, profiles: nat, families: int, complete: bool, others: seq<Fault>)

  const MAX_REVIEW_CANDIDATES := 32

  const TRUNCATED := Fault("pooled_evidence", "CandidateContextTruncated", None, None)

  /** The order in which eligible products are offered for review, each once. */
  ghost predicate IsRanking(rank: set<string> -> seq<string>) {
    forall ids :: |rank(ids)| == |ids| && forall id :: id in rank(ids) <==> id in ids
  }

  /** All reviews choose this product, cite it and name its title. */
  predicate IsBacked(cards: map<string, Card>, reviews: seq<Review>, id: string) {
    && id in cards && Choices(reviews) == {Some(id)}
    && forall r | r in reviews :: Cites(r, cards[id].candidate) && TitleFits(r, cards[id].candidate)
  }

  /** The faults of the queued path: what its rounds report, conflicting titles, and too many eligible products. */
  ghost predicate AreQueuedFaults(errors: seq<Fault>, found: seq<Card>, cards: map<string, Card>, others: seq<Fault>,
                                  eligible: set<string>)
  {
    && (forall e | e in others :: e in errors)
    && (forall id | id in cards :: TitlesConflict(found, id) ==> Conflict(id) in errors)
    && (|eligible| > MAX_REVIEW_CANDIDATES ==> TRUNCATED in errors)
    && forall e | e in errors ::
         || e in others
         || (e.candidate.Some? && e == Conflict(e.candidate.value) && e.candidate.value in cards
             && TitlesConflict(found, e.candidate.value))
         || (e == TRUNCATED && |eligible| > MAX_REVIEW_CANDIDATES)
  }

  /** What a queued recommendation takes, given the eligible products and all faults. */
  predicate QueuedRecommendable(cards: map<string, Card>, eligible: set<string>, errors: seq<Fault>, exchange: Exchange,
                                validations: Validations)
  {
    && (forall e | e in errors :: IsWarning(e, eligible)) && |eligible| <= MAX_REVIEW_CANDIDATES
    && (errors != [] ==> |exchange.reviews| == exchange.profiles)
    && ArithmeticPasses(validations) && (forall check | check in validations :: validations[check] != Fail)
    && exchange.complete && (forall r | r in exchange.reviews :: r.success)
    && |Families(exchange.reviews)| >= exchange.families
    && exists id :: id in eligible && IsBacked(cards, exchange.reviews, id)
  }

  /**
   The queued decision over pooled results: recommended exactly when every fault is a planned discovery limit or a
   title conflict of a product that is not eligible, all eligible products were offered, evidence and reviews are
   complete, both arithmetic checks passed and no other failed, and the reviews of enough families agree on an
   eligible product that each of them cites.  Its results never disagree about its title.
   */
  method DecideQueued(found: seq<Card>, exchange: Exchange, validations: Validations, threshold: real,
                      rank: set<string> -> seq<string>)
    returns (decision: Decision, cards: map<string, Card>, errors: seq<Fault>)
    requires IsRanking(rank)
    ensures exists conflicts :: Pooled(found, cards, conflicts)
    ensures AreQueuedFaults(errors, found, cards, exchange.others, EligibleIds(cards, threshold))
    ensures decision.recommended <==>
            QueuedRecommendable(cards, EligibleIds(cards, threshold), errors, exchange, validations)
    ensures decision.recommended ==>
              && decision.choice.Some? && decision.choice.value in EligibleIds(cards, threshold)
              && !TitlesConflict(found, decision.choice.value)
              && IsBacked(cards, exchange.reviews, decision.choice.value)
              && decision.families == Families(exchange.reviews)
    // Nothing but those two kinds of faults ever lets a recommendation through.
    ensures decision.recommended ==>
              && (forall check | check == "item_arithmetic" || check == "receipt_arithmetic" ::
                    check in validations && validations[check] == Pass)
              && (forall e | e in errors ::
                    || (e.stage == "ocr_alternative_search" && e.kind == "HypothesisBudgetExceeded")
                    || (e.stage == "pooled_evidence" && e.kind == "ConflictingRetailerTitle"))
              && (forall r | r in exchange.reviews ::
                    exists id :: id in r.output.sourceIds && id in cards[decision.choice.value].candidate.support)
  {
    hide Recommendable, Decided, TitlesConflict, IsBest, IsWarning, Eligible, IsBacked;
    var conflicts;
    cards, conflicts := Pool(found);
    PooledIds(found, cards, conflicts);
    var eligible := EligibleIds(cards, threshold);
    var ranked := rank(eligible);
    errors := exchange.others + conflicts;
    if |ranked| > MAX_REVIEW_CANDIDATES {
      errors := errors + [TRUNCATED];
      ranked := ranked[..MAX_REVIEW_CANDIDATES];
    }
    FaultsAreQueued(errors, found, cards, conflicts, exchange.others, eligible);
    forall i | 0 <= i < |ranked|
      ensures ranked[i] in eligible
    {
      assert ranked[i] in rank(eligible);
    }
    var candidates := seq(|ranked|, i requires 0 <= i < |ranked| && ranked[i] in cards => cards[ranked[i]].candidate);
    var blocking, recovered := ClassifyQueued(errors, eligible, exchange.reviews, exchange.profiles, exchange.complete);
    var k := Case(candidates, exchange.reviews, validations, threshold, blocking, exchange.complete, exchange.families);
    decision := Reconcile(k);
    RecommendedExactlyWhen(k);
    AllAreOffered(cards, threshold, ranked, candidates);
    QueuedExactlyWhen(k, cards, eligible, errors, recovered, exchange);
    forall e | e in errors && IsWarning(e, eligible)
      ensures || (e.stage == "ocr_alternative_search" && e.kind == "HypothesisBudgetExceeded")
              || (e.stage == "pooled_evidence" && e.kind == "ConflictingRetailerTitle")
    {
      WarningStages(e, eligible);
    }
    if Recommendable(k) {
      var c := RecommendedCandidate(k);
      EligibleConflictBlocks(c.id, eligible);
      if c.id in cards && IsBacked(cards, exchange.reviews, c.id) {
        BackedIsSupported(cards, exchange.reviews, c.id);
      }
      if ArithmeticPasses(validations) {
        AgreedExactlyWhen(candidates, cards, exchange.reviews, threshold, c.id);
      }
    }
    if !ArithmeticPasses(validations) {
      decision := decision.(recommended := false, reasons := decision.reasons + [ArithmeticNotVerified]);
    }
  }

  lemma PooledIds(found: seq<Card>, cards: map<string, Card>, errors: seq<Fault>)
    requires Pooled(found, cards, errors)
    ensures forall id | id in cards :: cards[id].candidate.id == id
  {
  }

  lemma FaultsAreQueued(errors: seq<Fault>, found: seq<Card>, cards: map<string, Card>, conflicts: seq<Fault>,
                        others: seq<Fault>, eligible: set<string>)
    requires Pooled(found, cards, conflicts) && forall e | e in conflicts :: e.candidate.value in cards
    requires errors == others + conflicts + if |eligible| > MAX_REVIEW_CANDIDATES then [TRUNCATED] else []
    ensures AreQueuedFaults(errors, found, cards, others, eligible)
  {
    hide IsBest, TitlesConflict;
  }

  /**
   Only eligible products are offered for review, with their pooled results, and all of them unless there are too many.
   */
  ghost predicate IsOffer(candidates: seq<Candidate>, cards: map<string, Card>, eligible: set<string>) {
    && (forall c | c in candidates :: c.id in eligible && c.id in cards && c == cards[c.id].candidate)
    && (|eligible| <= MAX_REVIEW_CANDIDATES ==>
          forall id | id in eligible :: id in cards && cards[id].candidate in candidates)
  }

  lemma AllAreOffered(cards: map<string, Card>, threshold: real, ranked: seq<string>, candidates: seq<Candidate>)
    requires forall id | id in cards :: cards[id].candidate.id == id
    requires forall i | 0 <= i < |ranked| :: ranked[i] in EligibleIds(cards, threshold)
    requires var eligible := EligibleIds(cards, threshold);
             |eligible| <= MAX_REVIEW_CANDIDATES ==> forall id | id in eligible :: id in ranked
    requires candidates == seq(|ranked|, i requires 0 <= i < |ranked| && ranked[i] in cards =>
                                 cards[ranked[i]].candidate)
    ensures IsOffer(candidates, cards, EligibleIds(cards, threshold))
  {
    hide Eligible;
    forall id | id in ranked
      ensures cards[id].candidate in candidates
    {
      var i :| 0 <= i < |ranked| && ranked[i] == id;
      assert candidates[i] == cards[id].candidate;
    }
  }

  /** Among the offered products, agreement is backing of an eligible one. */
  lemma AgreedExactlyWhen(candidates: seq<Candidate>, cards: map<string, Card>, reviews: seq<Review>, threshold: real,
                          id: string)
    requires var eligible := EligibleIds(cards, threshold);
             IsOffer(candidates, cards, eligible) && |eligible| <= MAX_REVIEW_CANDIDATES
    requires (forall id | id in cards :: cards[id].candidate.id == id) && forall r | r in reviews :: r.success
    ensures Agreed(candidates, reviews, threshold, id) <==>
            id in EligibleIds(cards, threshold) && IsBacked(cards, reviews, id)
  {
    hide Cites, TitleFits, Choices;
    var found := Find(candidates, id);
    if id in EligibleIds(cards, threshold) {
      assert cards[id].candidate in candidates && found.Some?;
    }
  }

  lemma QueuedExactlyWhen(k: Case, cards: map<string, Card>, eligible: set<string>, errors: seq<Fault>,
                          recovered: seq<Fault>, exchange: Exchange)
    requires eligible == EligibleIds(cards, k.threshold) && IsOffer(k.candidates, cards, eligible)
    requires forall id | id in cards :: cards[id].candidate.id == id
    requires |eligible| > MAX_REVIEW_CANDIDATES ==> TRUNCATED in errors
    requires AllOrNothing(errors, k.errors, recovered)
    requires recovered != []
        <==> && errors != [] && (forall e | e in errors :: IsWarning(e, eligible))
             && k.complete && |k.reviews| == exchange.profiles && (forall r | r in k.reviews :: r.success)
    requires k.reviews == exchange.reviews && k.complete == exchange.complete && k.minFamilies == exchange.families
    ensures Recommendable(k) && ArithmeticPasses(k.validations)
       <==> QueuedRecommendable(cards, eligible, errors, exchange, k.validations)
  {
    hide Agreed, IsBacked, EligibleIds, ArithmeticPasses, IsOffer, Families;
    if |eligible| > MAX_REVIEW_CANDIDATES {
      assert !IsWarning(TRUNCATED, eligible);
    } else if forall r | r in k.reviews :: r.success {
      forall id
        ensures Agreed(k.candidates, k.reviews, k.threshold, id) <==> id in eligible && IsBacked(cards, k.reviews, id)
      {
        AgreedExactlyWhen(k.candidates, cards, k.reviews, k.threshold, id);
      }
      forall id | IsBacked(cards, k.reviews, id)
        ensures Some(id) in Choices(k.reviews)
      {
        BackedIsChosen(cards, k.reviews, id);
      }
    }
  }

  lemma WarningStages(e: Fault, eligible: set<string>)
    requires IsWarning(e, eligible)
    ensures || (e.stage == "ocr_alternative_search" && e.kind == "HypothesisBudgetExceeded")
            || (e.stage == "pooled_evidence" && e.kind == "ConflictingRetailerTitle")
  {
  }

  lemma BackedIsSupported(cards: map<string, Card>, reviews: seq<Review>, id: string)
    requires IsBacked(cards, reviews, id)
    ensures forall r | r in reviews :: exists s :: s in r.output.sourceIds && s in cards[id].candidate.support
  {
    forall r | r in reviews
      ensures exists s :: s in r.output.sourceIds && s in cards[id].candidate.support
    {
      var s :| s in r.output.sourceIds * cards[id].candidate.support;
    }
  }

  lemma BackedIsChosen(cards: map<string, Card>, reviews: seq<Review>, id: string)
    requires IsBacked(cards, reviews, id)
    ensures Choices(reviews) == {Some(id)}
  {
  }

  lemma EligibleConflictBlocks(id: string, eligible: set<string>)
    ensures id in eligible ==> !IsWarning(Conflict(id), eligible)
  {
  }

  lemma RecommendedCandidate(k: Case) returns (c: Candidate)
    requires Recommendable(k)
    ensures c in k.candidates && Decided(k).choice == Some(c.id) && k.errors == [] && k.complete
    ensures Decided(k).families == Families(k.reviews) && |Families(k.reviews)| >= k.minFamilies
    ensures Agreed(k.candidates, k.reviews, k.threshold, c.id)
    ensures forall r | r in k.reviews :: r.success && r.output.choice == Some(c.id)
  {
    hide Cites, TitleFits;
    var choice :| choice in Choices(k.reviews) && choice.Some?
                  && Agreed(k.candidates, k.reviews, k.threshold, choice.value);
    SoleChoice(Choices(k.reviews), choice);
    c := Find(k.candidates, choice.value).value;
    forall r | r in k.reviews
      ensures r.output.choice == choice
    {
      assert r.output.choice in Choices(k.reviews);
    }
  }
}
