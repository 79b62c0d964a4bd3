/**
  The product detail page of the shop's frontend: the state slots of the
  component, the event handlers that update them, the render branches that
  decide what is on screen, and the review-form invariants.

  The handlers are modelled twice, on purpose: as the pure transition
  function `Step` over a `PageState` record (the reducer the lemmas talk
  about) and as the methods of class `ProductPage`, which update the slots in
  place and are proved to agree with `Step`.
 */
module IndividualProductPage {
  import opened Wrappers

  /** The textarea's `maxLength`, and the value the remaining-character counter starts from. */
  const MaxReviewLength: int := 100
  /** The number of stars of the rating widget. */
  const StarCount: int := 5

  datatype Product = Product(productName: string, productDescription: string, price: string, imgUrl: string)

  /** A review as the reviews endpoint returns it, with the reviewer's username joined in. */
  datatype Review = Review(rating: int, content: string, username: string)

  /** The component's state slots. */
  datatype PageState = PageState(
    product: Option<Product>,
    reviewContent: string,
    reviewerName: string,
    rating: int,
    isLoggedIn: bool,
    remainingChars: int,
    isReviewFormVisible: bool,
    reviews: seq<Review>)

  /** The slots' initial values, as the `useState` calls give them. */
  const Initial: PageState := PageState(None, "", "", 0, false, MaxReviewLength, false, [])

  /** What the submit handler logs: the draft review. */
  datatype Draft = Draft(productId: string, reviewerName: string, rating: int, reviewContent: string)

  /**
    The events that reach the component: the seven handlers, and the two
    fetches completing (their `setProduct` / `setReviews` calls).
   */
  datatype Event =
    | CancelReview
    | ReviewContentChange(value: string)
    | TextareaClick
    | ReviewSubmit
    | LogIn
    | StarClick(nextValue: int)
    | WriteReview
    | ProductFetched(data: Option<Product>)
    | ReviewsFetched(list: seq<Review>)

  /**
    Which submit handler is meant: the one the page has (`AsWritten`), or the
    one that also resets the counter as cancel does (`Corrected`).
   */
  datatype SubmitRule = AsWritten | Corrected

  /**
    The length JavaScript gives a string (`.length`, and the unit of a
    textarea's `maxLength`): the number of its UTF-16 code units, where a
    character outside the Basic Multilingual Plane takes two.
   */
  function Utf16Length(s: string): (n: nat)
    ensures |s| <= n <= 2 * |s|
    ensures n == |s| <==> forall i :: 0 <= i < |s| ==> s[i] as int < 0x1_0000
  {
    if s == [] then 0
    else (if s[0] as int < 0x1_0000 then 1 else 2) + Utf16Length(s[1..])
  }

  /** A string of Basic Multilingual Plane characters has one code unit per character. */
  lemma BmpLength(s: string)
    requires forall i :: 0 <= i < |s| ==> s[i] as int < 0x1_0000
    ensures Utf16Length(s) == |s|
  {
  }

  /** An emoji counts twice: typing one leaves 98 characters, not 99. */
  lemma AstralCharacterCountsTwice(rule: SubmitRule, s: PageState)
    ensures Utf16Length("\U{1F600}") == 2
    ensures Step(rule, s, ReviewContentChange("\U{1F600}")).remainingChars == 98
  {
  }

  /** The intended counter invariant: the counter shows how much room the draft has left. */
  predicate CounterInvariant(s: PageState) {
    s.remainingChars == MaxReviewLength - Utf16Length(s.reviewContent)
  }

  /** The facts that hold in every state the page can reach, whichever submit rule it uses. */
  predicate Invariant(s: PageState) {
    && 0 <= s.rating <= StarCount
    && Utf16Length(s.reviewContent) <= MaxReviewLength
    && 0 <= s.remainingChars <= MaxReviewLength
    && (s.isReviewFormVisible ==> s.isLoggedIn)
    && s.reviewerName == ""
  }

  /**
    The submit handler: clears the reviewer name, the rating and the content.
    As written it leaves the counter alone, so the counter is right afterwards
    only if it already read 100; the corrected rule resets it.
   */
  function Submit(rule: SubmitRule, s: PageState): (r: PageState)
    ensures r.reviewerName == "" && r.rating == 0 && r.reviewContent == ""
    ensures r.product == s.product && r.isLoggedIn == s.isLoggedIn && r.reviews == s.reviews
    ensures r.isReviewFormVisible == s.isReviewFormVisible
    ensures CounterInvariant(r) <==> rule == Corrected || s.remainingChars == MaxReviewLength
  {
    var cleared := s.(reviewerName := "", rating := 0, reviewContent := "");
    match rule
    case AsWritten => cleared
    case Corrected => cleared.(remainingChars := MaxReviewLength)
  }

  /**
    The state after one event. Each clause below says, slot by slot, which
    events can change that slot at all; every other event leaves it as it was.
   */
  function Step(rule: SubmitRule, s: PageState, e: Event): (r: PageState)
    ensures r.product == (if e.ProductFetched? then e.data else s.product)
    ensures r.reviews == (if e.ReviewsFetched? then e.list else s.reviews)
    ensures r.isLoggedIn == (s.isLoggedIn || e == LogIn)
    ensures r.reviewerName == (if e == ReviewSubmit then "" else s.reviewerName)
    ensures r.isReviewFormVisible == (e == WriteReview || (s.isReviewFormVisible && e != CancelReview))
    ensures r.rating != s.rating ==> e.StarClick? || e == CancelReview || e == ReviewSubmit
    ensures r.reviewContent != s.reviewContent ==> e.ReviewContentChange? || e == CancelReview || e == ReviewSubmit
    ensures r.remainingChars != s.remainingChars ==>
              e.ReviewContentChange? || e == TextareaClick || e == CancelReview || (e == ReviewSubmit && rule == Corrected)
  {
    match e
    case CancelReview =>
      s.(isReviewFormVisible := false, rating := 0, reviewContent := "", remainingChars := MaxReviewLength)
    case ReviewContentChange(v) =>
      s.(reviewContent := v, remainingChars := MaxReviewLength - Utf16Length(v))
    case TextareaClick =>
      s.(remainingChars := MaxReviewLength - Utf16Length(s.reviewContent))
    case ReviewSubmit =>
      Submit(rule, s)
    case LogIn =>
      s.(isLoggedIn := true)
    case StarClick(n) =>
      s.(rating := n)
    case WriteReview =>
      s.(isReviewFormVisible := true)
    case ProductFetched(p) =>
      s.(product := p)
    case ReviewsFetched(rs) =>
      s.(reviews := rs)
  }

  // ---------------------------------------------------------------------------
  // Rendering

  /** The review form on screen; `counter` is the "N characters remaining" text, when shown. */
  datatype FormView = FormView(rating: int, content: string, counter: Option<int>)

  /** The review area: a login prompt, or the "Write a Review" button with the form below it when open. */
  datatype ReviewArea = LoginPrompt | Composer(form: Option<FormView>)

  datatype ReviewList = NoReviewsYet | ReviewItems(items: seq<Review>)

  datatype Screen = Loading | Details(product: Product, area: ReviewArea, list: ReviewList)

  /** The form on screen, if any. */
  function FormOf(v: Screen): Option<FormView> {
    if v.Details? && v.area.Composer? then v.area.form else None
  }

  /** What the component draws for a state. */
  function Render(s: PageState): (v: Screen)
    ensures v.Loading? <==> s.product.None?
    ensures v.Details? ==> v.product == s.product.value
    ensures v.Details? ==> (v.area.LoginPrompt? <==> !s.isLoggedIn)
    ensures v.Details? ==> (v.list.NoReviewsYet? <==> |s.reviews| == 0)
    ensures v.Details? && v.list.ReviewItems? ==> v.list.items == s.reviews
    ensures FormOf(v).Some? <==> s.product.Some? && s.isLoggedIn && s.isReviewFormVisible
    ensures FormOf(v).Some? ==>
              && FormOf(v).value.rating == s.rating
              && FormOf(v).value.content == s.reviewContent
              && (FormOf(v).value.counter.Some? <==> s.remainingChars < MaxReviewLength)
              && (FormOf(v).value.counter.Some? ==> FormOf(v).value.counter.value == s.remainingChars)
  {
    match s.product
    case None => Loading
    case Some(p) =>
      var area :=
        if !s.isLoggedIn then LoginPrompt
        else if !s.isReviewFormVisible then Composer(None)
        else
          var counter := if s.remainingChars < MaxReviewLength then Some(s.remainingChars) else None;
          Composer(Some(FormView(s.rating, s.reviewContent, counter)));
      var list := if |s.reviews| == 0 then NoReviewsYet else ReviewItems(s.reviews);
      Details(p, area, list)
  }

  /**
    Whether an event can happen in a state: a handler fires only while the
    element it is attached to is on screen; the textarea accepts at most
    `MaxReviewLength` characters and the star widget reports 1 to `StarCount`.
    The fetches may complete at any time.
   */
  predicate Enabled(s: PageState, e: Event): (b: bool)
    ensures b && !e.ProductFetched? && !e.ReviewsFetched? ==> s.product.Some?
    ensures e == LogIn ==> (b <==> s.product.Some? && !s.isLoggedIn)
    ensures e == WriteReview ==> (b <==> s.product.Some? && s.isLoggedIn)
    ensures e in {CancelReview, TextareaClick, ReviewSubmit} ==>
              (b <==> s.product.Some? && s.isLoggedIn && s.isReviewFormVisible)
    ensures e.ReviewContentChange? ==>
              (b <==> s.product.Some? && s.isLoggedIn && s.isReviewFormVisible && Utf16Length(e.value) <= MaxReviewLength)
    ensures e.StarClick? ==>
              (b <==> s.product.Some? && s.isLoggedIn && s.isReviewFormVisible && 1 <= e.nextValue <= StarCount)
  {
    var v := Render(s);
    match e
    case LogIn => v.Details? && v.area.LoginPrompt?
    case WriteReview => v.Details? && v.area.Composer?
    case CancelReview => FormOf(v).Some?
    case TextareaClick => FormOf(v).Some?
    case ReviewSubmit => FormOf(v).Some?
    case ReviewContentChange(value) => FormOf(v).Some? && Utf16Length(value) <= MaxReviewLength
    case StarClick(n) => FormOf(v).Some? && 1 <= n <= StarCount
    case ProductFetched(_) => true
    case ReviewsFetched(_) => true
  }

  /** Every event of `evs` is enabled in the state it arrives in. */
  predicate Admissible(rule: SubmitRule, s: PageState, evs: seq<Event>)
    decreases |evs|
  {
    evs == [] || (Enabled(s, evs[0]) && Admissible(rule, Step(rule, s, evs[0]), evs[1..]))
  }

  /** The state after a sequence of events. */
  function Run(rule: SubmitRule, s: PageState, evs: seq<Event>): PageState
    decreases |evs|
  {
    if evs == [] then s else Run(rule, Step(rule, s, evs[0]), evs[1..])
  }

  // ---------------------------------------------------------------------------
  // Properties of the handlers

  lemma CancelRestoresCounter(rule: SubmitRule, s: PageState)
    ensures var r := Step(rule, s, CancelReview);
            && CounterInvariant(r) && !r.isReviewFormVisible && r.rating == 0 && r.reviewContent == ""
            && r.isLoggedIn == s.isLoggedIn && r.reviewerName == s.reviewerName
            && r.reviews == s.reviews && r.product == s.product
  {
  }

  lemma ContentChangeSetsCounter(rule: SubmitRule, s: PageState, v: string)
    requires Enabled(s, ReviewContentChange(v))
    ensures var r := Step(rule, s, ReviewContentChange(v));
            && r.reviewContent == v && CounterInvariant(r)
            && 0 <= r.remainingChars <= MaxReviewLength
            && r == s.(reviewContent := v, remainingChars := r.remainingChars)
  {
  }

  lemma TextareaClickSetsCounter(rule: SubmitRule, s: PageState)
    ensures var r := Step(rule, s, TextareaClick);
            CounterInvariant(r) && r == s.(remainingChars := r.remainingChars)
  {
  }

  lemma SubmitClearsDraft(rule: SubmitRule, s: PageState)
    ensures var r := Step(rule, s, ReviewSubmit);
            && r.reviewerName == "" && r.rating == 0 && r.reviewContent == ""
            && r.isReviewFormVisible == s.isReviewFormVisible
            && (rule == AsWritten ==> r.remainingChars == s.remainingChars)
            && (rule == Corrected ==> CounterInvariant(r))
  {
  }

  /** As written, submit keeps the counter exactly when the draft was already empty. */
  lemma SubmitKeepsCounterOnlyWhenEmpty(s: PageState)
    requires CounterInvariant(s)
    ensures CounterInvariant(Step(AsWritten, s, ReviewSubmit)) <==> s.reviewContent == ""
  {
  }

  lemma LogInIsIdempotent(rule: SubmitRule, s: PageState)
    ensures var r := Step(rule, s, LogIn);
            && r == s.(isLoggedIn := true)
            && Step(rule, r, LogIn) == r
  {
  }

  lemma StarClickSetsRating(rule: SubmitRule, s: PageState, n: int)
    requires Enabled(s, StarClick(n))
    ensures var r := Step(rule, s, StarClick(n));
            r == s.(rating := n) && 1 <= r.rating <= StarCount
  {
  }

  /** The form opens only from the "Write a Review" button, which is drawn only for a logged-in user. */
  lemma WriteReviewNeedsLogin(rule: SubmitRule, s: PageState)
    requires Enabled(s, WriteReview)
    ensures s.isLoggedIn && s.product.Some?
    ensures Step(rule, s, WriteReview) == s.(isReviewFormVisible := true)
  {
  }

  /** One enabled event keeps the invariant, under either submit rule. */
  lemma StepKeepsInvariant(rule: SubmitRule, s: PageState, e: Event)
    requires Invariant(s) && Enabled(s, e)
    ensures Invariant(Step(rule, s, e))
  {
  }

  /** With the corrected submit, one enabled event also keeps the counter invariant. */
  lemma CorrectedStepKeepsCounter(s: PageState, e: Event)
    requires Invariant(s) && CounterInvariant(s) && Enabled(s, e)
    ensures CounterInvariant(Step(Corrected, s, e))
  {
  }

  // ---------------------------------------------------------------------------
  // Properties of every reachable state

  lemma InitialState()
    ensures Invariant(Initial) && CounterInvariant(Initial) && Render(Initial) == Loading
  {
  }

  /** Along any admissible run the invariant holds: rating in 0..5, counter in 0..100, form only while logged in. */
  lemma {:induction false} RunKeepsInvariant(rule: SubmitRule, s: PageState, evs: seq<Event>)
    requires Invariant(s) && Admissible(rule, s, evs)
    ensures Invariant(Run(rule, s, evs))
    decreases |evs|
  {
    if evs != [] {
      StepKeepsInvariant(rule, s, evs[0]);
      RunKeepsInvariant(rule, Step(rule, s, evs[0]), evs[1..]);
    }
  }

  /** With the corrected submit, the counter always equals 100 minus the draft's length. */
  lemma {:induction false} CorrectedRunKeepsCounter(s: PageState, evs: seq<Event>)
    requires Invariant(s) && CounterInvariant(s) && Admissible(Corrected, s, evs)
    ensures CounterInvariant(Run(Corrected, s, evs))
    ensures Invariant(Run(Corrected, s, evs))
    decreases |evs|
  {
    if evs != [] {
      StepKeepsInvariant(Corrected, s, evs[0]);
      CorrectedStepKeepsCounter(s, evs[0]);
      CorrectedRunKeepsCounter(Step(Corrected, s, evs[0]), evs[1..]);
    }
  }

  /** A run that any user can produce: open a product, log in, open the form, type "abc", submit. */
  function StaleCounterScenario(p: Product): seq<Event> {
    [ProductFetched(Some(p)), LogIn, WriteReview, ReviewContentChange("abc"), ReviewSubmit]
  }

  /**
    As written, that run ends with the form still open, its textarea empty and
    "97 characters remaining" shown beneath it; with the corrected submit the
    counter is back at 100 and hidden.
   */
  lemma {:induction false} SubmitLeavesStaleCounter(p: Product)
    ensures Admissible(AsWritten, Initial, StaleCounterScenario(p))
    ensures var s := Run(AsWritten, Initial, StaleCounterScenario(p));
            && !CounterInvariant(s)
            && FormOf(Render(s)) == Some(FormView(0, "", Some(97)))
    ensures var s := Run(Corrected, Initial, StaleCounterScenario(p));
            && CounterInvariant(s)
            && FormOf(Render(s)) == Some(FormView(0, "", None))
  {
    var evs := StaleCounterScenario(p);
    var s3 := Initial.(product := Some(p), isLoggedIn := true, isReviewFormVisible := true);
    var s4 := s3.(reviewContent := "abc", remainingChars := 97);
    BmpLength("abc");
    assert Step(AsWritten, s3, evs[3]) == Step(Corrected, s3, evs[3]) == s4;
    var w5 := Step(AsWritten, s4, evs[4]);
    var c5 := Step(Corrected, s4, evs[4]);
    assert w5 == s4.(reviewContent := "", rating := 0);
    assert c5 == s4.(reviewContent := "", rating := 0, remainingChars := 100);
    assert Admissible(AsWritten, s4, evs[4..]);
    assert Admissible(AsWritten, s3, evs[3..]);
    forall rule: SubmitRule
      ensures Run(rule, Initial, evs) == Run(rule, s4, evs[4..]) == Step(rule, s4, evs[4])
    {
      var s1 := Initial.(product := Some(p));
      var s2 := s1.(isLoggedIn := true);
      assert Step(rule, Initial, evs[0]) == s1 && Step(rule, s1, evs[1]) == s2 && Step(rule, s2, evs[2]) == s3;
      assert Run(rule, Initial, evs) == Run(rule, s1, evs[1..]);
      assert Run(rule, s1, evs[1..]) == Run(rule, s2, evs[2..]);
      assert Run(rule, s2, evs[2..]) == Run(rule, s3, evs[3..]);
      assert Run(rule, s4, evs[4..]) == Run(rule, Step(rule, s4, evs[4]), []);
    }
  }

  // ---------------------------------------------------------------------------
  // The component, with its slots updated in place

  class ProductPage {
    /** The route parameter the page was opened with. */
    const productId: string
    var product: Option<Product>
    var reviewContent: string
    var reviewerName: string
    var rating: int
    var isLoggedIn: bool
    var remainingChars: int
    var isReviewFormVisible: bool
    var reviews: seq<Review>

    /** The slots as one record. */
    function State(): PageState
      reads this
    {
      PageState(product, reviewContent, reviewerName, rating, isLoggedIn, remainingChars, isReviewFormVisible, reviews)
    }

    constructor (productId: string)
      ensures this.productId == productId && State() == Initial
    {
      this.productId := productId;
      product := None;
      reviewContent := "";
      reviewerName := "";
      rating := 0;
      isLoggedIn := false;
      remainingChars := MaxReviewLength;
      isReviewFormVisible := false;
      reviews := [];
    }

    method HandleCancelReview()
      modifies this
      ensures !isReviewFormVisible && rating == 0 && reviewContent == "" && remainingChars == MaxReviewLength
      ensures unchanged(this`product, this`reviewerName, this`isLoggedIn, this`reviews)
      ensures State() == Step(AsWritten, old(State()), CancelReview)
    {
      isReviewFormVisible := false;
      rating := 0;
      reviewContent := "";
      remainingChars := MaxReviewLength;
    }

    method HandleReviewContentChange(value: string)
      modifies this
      ensures reviewContent == value && remainingChars == MaxReviewLength - Utf16Length(value)
      ensures unchanged(this`product, this`reviewerName, this`rating, this`isLoggedIn, this`isReviewFormVisible, this`reviews)
      ensures State() == Step(AsWritten, old(State()), ReviewContentChange(value))
    {
      reviewContent := value;
      remainingChars := MaxReviewLength - Utf16Length(value);
    }

    /** The textarea's click handler. */
    method HandleTextareaClick()
      modifies this
      ensures remainingChars == MaxReviewLength - Utf16Length(reviewContent)
      ensures unchanged(this`product, this`reviewContent, this`reviewerName, this`rating, this`isLoggedIn,
                        this`isReviewFormVisible, this`reviews)
      ensures State() == Step(AsWritten, old(State()), TextareaClick)
    {
      remainingChars := MaxReviewLength - Utf16Length(reviewContent);
    }

    /** Logs the draft (returned here as `logged`) and clears it; the counter is left as it was. */
    method HandleReviewSubmit() returns (logged: Draft)
      modifies this
      ensures logged == Draft(productId, old(reviewerName), old(rating), old(reviewContent))
      ensures reviewerName == "" && rating == 0 && reviewContent == ""
      ensures unchanged(this`product, this`isLoggedIn, this`remainingChars, this`isReviewFormVisible, this`reviews)
      ensures State() == Step(AsWritten, old(State()), ReviewSubmit)
    {
      logged := Draft(productId, reviewerName, rating, reviewContent);
      reviewerName := "";
      rating := 0;
      reviewContent := "";
    }

    method HandleLogin()
      modifies this
      ensures isLoggedIn
      ensures unchanged(this`product, this`reviewContent, this`reviewerName, this`rating, this`remainingChars,
                        this`isReviewFormVisible, this`reviews)
      ensures State() == Step(AsWritten, old(State()), LogIn)
    {
      isLoggedIn := true;
    }

    method OnStarClick(nextValue: int)
      modifies this
      ensures rating == nextValue
      ensures unchanged(this`product, this`reviewContent, this`reviewerName, this`isLoggedIn, this`remainingChars,
                        this`isReviewFormVisible, this`reviews)
      ensures State() == Step(AsWritten, old(State()), StarClick(nextValue))
    {
      rating := nextValue;
    }

    /** The "Write a Review" button's click handler. */
    method HandleWriteReview()
      modifies this
      ensures isReviewFormVisible
      ensures unchanged(this`product, this`reviewContent, this`reviewerName, this`rating, this`isLoggedIn,
                        this`remainingChars, this`reviews)
      ensures State() == Step(AsWritten, old(State()), WriteReview)
    {
      isReviewFormVisible := true;
    }

    /** The product fetch completing: `setProduct(response.data)`. */
    method SetProduct(data: Option<Product>)
      modifies this
      ensures product == data
      ensures unchanged(this`reviewContent, this`reviewerName, this`rating, this`isLoggedIn, this`remainingChars,
                        this`isReviewFormVisible, this`reviews)
      ensures State() == Step(AsWritten, old(State()), ProductFetched(data))
    {
      product := data;
    }

    /** The reviews fetch completing: `setReviews(response.data)`. */
    method SetReviews(list: seq<Review>)
      modifies this
      ensures reviews == list
      ensures unchanged(this`product, this`reviewContent, this`reviewerName, this`rating, this`isLoggedIn,
                        this`remainingChars, this`isReviewFormVisible)
      ensures State() == Step(AsWritten, old(State()), ReviewsFetched(list))
    {
      reviews := list;
    }
  }
}
