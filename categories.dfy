/**
 * The category grid of a tenant's home page: the fetch that fills it, the
 * filter that keeps only active categories translated into the selected
 * language, the name and description shown for each, the route a click
 * navigates to, and which of the four screens is shown.
 *
 * The network call is not modelled: its outcome is a parameter.
 */
module Categories {

  import opened Wrappers
  import opened JsText
  import opened Catalog
  import LanguageContext

  // ---------------------------------------------------------------------------
  // The active-and-translated filter

  predicate HasTranslationIn(c: Category, lang: JsNumber) {
    exists i :: 0 <= i < |c.translations| && LanguageContext.Matches(c.translations[i], lang)
  }

  /** The test the response filter applies to each category. */
  predicate Shown(c: Category, lang: JsNumber) {
    c.isActive && c.translations != [] && HasTranslationIn(c, lang)
  }

  /** `response.data.filter(...)`: the categories that pass, in response order. */
  function FilterActive(cs: seq<Category>, lang: JsNumber): (r: seq<Category>)
    ensures |r| <= |cs|
    ensures forall c :: c in r <==> c in cs && Shown(c, lang)
  {
    if cs == [] then []
    else if Shown(cs[0], lang) then [cs[0]] + FilterActive(cs[1..], lang)
    else FilterActive(cs[1..], lang)
  }

  /** The filter keeps response order: it distributes over concatenation. */
  lemma {:induction false} FilterActiveAppend(a: seq<Category>, b: seq<Category>, lang: JsNumber)
    ensures FilterActive(a + b, lang) == FilterActive(a, lang) + FilterActive(b, lang)
  {
    if a == [] {
      assert a + b == b;
    } else {
      assert (a + b)[1..] == a[1..] + b;
      FilterActiveAppend(a[1..], b, lang);
    }
  }

  /** A list every member of which passes is kept whole. */
  lemma {:induction false} FilterActiveKeepsShown(cs: seq<Category>, lang: JsNumber)
    requires forall i :: 0 <= i < |cs| ==> Shown(cs[i], lang)
    ensures FilterActive(cs, lang) == cs
  {
    if cs != [] {
      FilterActiveKeepsShown(cs[1..], lang);
      assert [cs[0]] + cs[1..] == cs;
    }
  }

  /** Filtering twice under the same language is filtering once. */
  lemma FilterActiveIdempotent(cs: seq<Category>, lang: JsNumber)
    ensures FilterActive(FilterActive(cs, lang), lang) == FilterActive(cs, lang)
  {
    var r := FilterActive(cs, lang);
    forall i | 0 <= i < |r| ensures Shown(r[i], lang) {
      assert r[i] in r;
    }
    FilterActiveKeepsShown(r, lang);
  }

  // ---------------------------------------------------------------------------
  // getCategoryName and getCategoryDescription

  /** What is shown for a category without translations. */
  function CategoryPlaceholder(field: LanguageContext.Field): string {
    match field
    case Name => "Unnamed Category"
    case Description => ""
  }

  /**
   * The shared lookup of `getCategoryName` and `getCategoryDescription`:
   * the first translation in the selected language, else the first
   * translation, else the placeholder.
   */
  function CategoryText(c: Category, lang: JsNumber, field: LanguageContext.Field): (r: string)
    ensures c.translations == [] ==> r == CategoryPlaceholder(field)
    ensures c.translations != [] ==>
              exists i :: 0 <= i < |c.translations| && r == LanguageContext.FieldOf(c.translations[i], field)
  {
    if c.translations == [] then CategoryPlaceholder(field)
    else
      match LanguageContext.FindTranslation(c.translations, lang)
      case Some(i) => LanguageContext.FieldOf(c.translations[i], field)
      case None => LanguageContext.FieldOf(c.translations[0], field)
  }

  /** `getCategoryName(category)` */
  function CategoryName(c: Category, lang: JsNumber): (r: string)
    ensures c.translations == [] ==> r == "Unnamed Category"
    ensures c.translations != [] ==> exists i :: 0 <= i < |c.translations| && r == c.translations[i].name
  {
    CategoryText(c, lang, LanguageContext.Name)
  }

  /** `getCategoryDescription(category)` */
  function CategoryDescription(c: Category, lang: JsNumber): (r: string)
    ensures c.translations == [] ==> r == ""
    ensures c.translations != [] ==> exists i :: 0 <= i < |c.translations| && r == c.translations[i].description
  {
    CategoryText(c, lang, LanguageContext.Description)
  }

  /**
   * On a non-empty list the category resolvers give what the shared
   * `getTranslation` gives; they differ only in the name placeholder.
   */
  lemma CategoryTextAgreesWithGetTranslation(c: Category, lang: JsNumber, field: LanguageContext.Field)
    ensures c.translations != [] ==>
              CategoryText(c, lang, field) == LanguageContext.GetTranslation(c.translations, lang, field)
    ensures c.translations == [] && field == LanguageContext.Name ==>
              CategoryText(c, lang, field) != LanguageContext.GetTranslation(c.translations, lang, field)
  {
  }

  /**
   * A category that passed the filter under the selected language is named
   * and described by its first translation in that language, never by the
   * fallback to the first translation.
   */
  lemma ShownCategoryUsesSelectedLanguage(c: Category, lang: JsNumber)
    requires Shown(c, lang)
    ensures var k := LanguageContext.FindTranslation(c.translations, lang);
            && k.Some?
            && CategoryName(c, lang) == c.translations[k.value].name
            && CategoryDescription(c, lang) == c.translations[k.value].description
            && LanguageContext.Matches(c.translations[k.value], lang)
  {
    var k := LanguageContext.FindTranslation(c.translations, lang);
    var i :| 0 <= i < |c.translations| && LanguageContext.Matches(c.translations[i], lang);
    assert k.Some? by {
      assert !(forall j :: 0 <= j < |c.translations| ==> !LanguageContext.Matches(c.translations[j], lang));
    }
  }

  // ---------------------------------------------------------------------------
  // handleCategoryClick

  /** `pathname.split('/')[1]`, which is `undefined` when there is no second piece. */
  function SlugOf(pathname: string): (r: string)
    ensures '/' !in r
  {
    var pieces := Split(pathname, '/');
    if |pieces| > 1 then pieces[1] else "undefined"
  }

  /**
   * The route `handleCategoryClick` pushes for a category, from the current
   * pathname: a page under the same slug.
   */
  function CategoryPath(pathname: string, categoryId: int): (r: string)
    ensures |r| > 0 && r[0] == '/'
    ensures SlugOf(r) == SlugOf(pathname)
  {
    SlugOfCategoryPage(SlugOf(pathname), IntToString(categoryId));
    "/" + SlugOf(pathname) + "/category/" + IntToString(categoryId)
  }

  lemma SlugOfCategoryPage(slug: string, id: string)
    requires '/' !in slug
    ensures SlugOf("/" + slug + "/category/" + id) == slug
  {
    SlugOfTenantPage(slug, "category/" + id);
    assert "/" + slug + "/category/" + id == "/" + slug + "/" + ("category/" + id);
  }

  /** On any page under a tenant's slug, a click stays under that slug. */
  lemma {:induction false} SlugOfTenantPage(slug: string, rest: string)
    requires '/' !in slug
    ensures SlugOf("/" + slug) == slug
    ensures SlugOf("/" + slug + "/" + rest) == slug
  {
    SplitWithoutSeparator(slug, '/');
    assert "/" + slug == [] + ['/'] + slug;
    SplitAround([], '/', slug);
    assert Split("/" + slug, '/') == [""] + [slug];
    assert "/" + slug + "/" + rest == [] + ['/'] + (slug + ['/'] + rest);
    SplitAround([], '/', slug + ['/'] + rest);
    SplitAround(slug, '/', rest);
    assert slug + "/" + rest == slug + ['/'] + rest;
  }

  lemma CategoryPathOnTenantPage(slug: string, rest: string, categoryId: int)
    requires '/' !in slug
    ensures CategoryPath("/" + slug, categoryId) == "/" + slug + "/category/" + IntToString(categoryId)
    ensures CategoryPath("/" + slug + "/" + rest, categoryId) == CategoryPath("/" + slug, categoryId)
  {
    SlugOfTenantPage(slug, rest);
  }

  /** Clicking on the category page of another category keeps the tenant. */
  lemma CategoryPathFromCategoryPage(slug: string, fromId: int, toId: int)
    requires '/' !in slug
    ensures CategoryPath(CategoryPath("/" + slug, fromId), toId) == CategoryPath("/" + slug, toId)
  {
    CategoryPathOnTenantPage(slug, "category/" + IntToString(fromId), fromId);
    assert "/" + slug + "/category/" + IntToString(fromId) == "/" + slug + "/" + ("category/" + IntToString(fromId));
    CategoryPathOnTenantPage(slug, "category/" + IntToString(fromId), toId);
  }

  /** A pathname with no slash has no second piece, and the route reads `/undefined/...`. */
  lemma CategoryPathWithoutSlash(pathname: string, categoryId: int)
    requires '/' !in pathname
    ensures CategoryPath(pathname, categoryId) == "/undefined/category/" + IntToString(categoryId)
  {
    SplitWithoutSeparator(pathname, '/');
  }

  // ---------------------------------------------------------------------------
  // The fetch and the screens

  /** What the awaited `getCategories` call produced. */
  datatype FetchOutcome =
    | Response(isSuccessful: bool, message: string, data: seq<Category>)
    | ThrewError(errorMessage: string)     // an `Error`, e.g. from the network layer
    | ThrewOther                           // anything thrown that is not an `Error`

  const FailedToLoad: string := "Failed to load categories"
  const UnexpectedError: string := "An unexpected error occurred while loading categories."

  datatype View = View(categories: seq<Category>, loading: bool, error: Option<string>)

  /** The state on mount: an empty list, loading, no error. */
  function InitialView(): (r: View)
    ensures r.categories == [] && r.error == None
    ensures forall lang :: Render(r, lang) == Skeleton
  {
    View([], true, None)
  }

  /**
   * `fetchCategories` run to completion for `tenant`, with the selected
   * language as it was when the fetch ran.
   */
  function Fetch(v: View, tenant: string, lang: JsNumber, outcome: FetchOutcome): (r: View)
    ensures tenant == "" ==> r == v
    ensures tenant != "" ==> !r.loading
    ensures tenant != "" && outcome.Response? && outcome.isSuccessful ==>
              r.categories == FilterActive(outcome.data, lang) && r.error == None
    ensures tenant != "" && !(outcome.Response? && outcome.isSuccessful) ==>
              r.categories == v.categories && r.error.Some?
    ensures tenant != "" && outcome.Response? && !outcome.isSuccessful ==>
              r.error == Some(if outcome.message != "" then outcome.message else FailedToLoad)
    ensures tenant != "" && outcome.ThrewError? ==> r.error == Some(outcome.errorMessage)
    ensures tenant != "" && outcome.ThrewOther? ==> r.error == Some(UnexpectedError)
  {
    if tenant == "" then v
    else
      match outcome
      case Response(ok, message, data) =>
        if ok then View(FilterActive(data, lang), false, None)
        else View(v.categories, false, Some(if message != "" then message else FailedToLoad))
      case ThrewError(message) => View(v.categories, false, Some(message))
      case ThrewOther => View(v.categories, false, Some(UnexpectedError))
  }

  /** One card of the grid. */
  datatype Card = Card(id: int, name: string, description: Option<string>, image: Option<string>)

  /** The screen the component renders. */
  datatype Screen = Skeleton | ErrorPanel(message: string) | NoCategories | Grid(cards: seq<Card>)

  /** A card: the description paragraph only for a non-empty description, the image only for a non-empty URL. */
  function CardOf(c: Category, lang: JsNumber): (r: Card)
    ensures r.id == c.id && r.name == CategoryName(c, lang)
    ensures r.description.Some? <==> CategoryDescription(c, lang) != ""
    ensures r.description.Some? ==> r.description.value == CategoryDescription(c, lang)
    ensures r.image.Some? <==> c.imageUrl != ""
  {
    var description := CategoryDescription(c, lang);
    Card(c.id, CategoryName(c, lang),
         if description != "" then Some(description) else None,
         if c.imageUrl != "" then Some(c.imageUrl) else None)
  }

  /** Loading first, then a non-empty error, then the empty notice, then the grid. */
  function Render(v: View, lang: JsNumber): (r: Screen)
    ensures r.Skeleton? <==> v.loading
    ensures r.ErrorPanel? <==> !v.loading && v.error.Some? && v.error.value != ""
    ensures r.NoCategories? <==> !v.loading && (v.error.None? || v.error.value == "") && v.categories == []
    ensures r.Grid? ==> (|r.cards| == |v.categories| &&
              forall i :: 0 <= i < |v.categories| ==> r.cards[i] == CardOf(v.categories[i], lang))
  {
    if v.loading then Skeleton
    else if v.error.Some? && v.error.value != "" then ErrorPanel(v.error.value)
    else if v.categories == [] then NoCategories
    else Grid(seq(|v.categories|, i requires 0 <= i < |v.categories| => CardOf(v.categories[i], lang)))
  }

  /** With an empty tenant the fetch never starts, and the skeleton stays. */
  lemma EmptyTenantStaysLoading(lang: JsNumber, outcome: FetchOutcome)
    ensures Render(Fetch(InitialView(), "", lang, outcome), lang) == Skeleton
  {
  }

  /** A failed response shows its message, or the default one, and keeps the previous list. */
  lemma FailedResponseShowsError(v: View, tenant: string, lang: JsNumber, message: string, data: seq<Category>)
    requires tenant != ""
    ensures var r := Fetch(v, tenant, lang, Response(false, message, data));
            && Render(r, lang) == ErrorPanel(if message != "" then message else FailedToLoad)
            && r.categories == v.categories
  {
  }

  /**
   * A thrown `Error` with an empty message sets an error that is not shown:
   * the screen falls through to the previous list, or to the empty notice.
   */
  lemma EmptyThrownMessageIsNotShown(v: View, tenant: string, lang: JsNumber)
    requires tenant != ""
    ensures var r := Fetch(v, tenant, lang, ThrewError(""));
            && r.error == Some("")
            && (Render(r, lang).NoCategories? || Render(r, lang).Grid?)
  {
  }

  /** The card carries the name of a translation of the category in the given language. */
  predicate NamedInLanguage(card: Card, c: Category, lang: JsNumber) {
    exists k :: 0 <= k < |c.translations| &&
      LanguageContext.Matches(c.translations[k], lang) && card.name == c.translations[k].name
  }

  /**
   * After a successful fetch the grid holds one card per kept category, in
   * response order, each named in the language the fetch ran under.
   */
  lemma SuccessShowsFilteredGrid(v: View, tenant: string, lang: JsNumber, message: string, data: seq<Category>)
    requires tenant != ""
    ensures var r := Fetch(v, tenant, lang, Response(true, message, data));
            var kept := FilterActive(data, lang);
            && (kept == [] ==> Render(r, lang) == NoCategories)
            && (kept != [] ==> (Render(r, lang).Grid? && |Render(r, lang).cards| == |kept| &&
                 forall i :: 0 <= i < |kept| ==> NamedInLanguage(Render(r, lang).cards[i], kept[i], lang)))
  {
    var r := Fetch(v, tenant, lang, Response(true, message, data));
    var kept := FilterActive(data, lang);
    if kept != [] {
      var screen := Render(r, lang);
      forall i | 0 <= i < |kept| ensures NamedInLanguage(screen.cards[i], kept[i], lang) {
        assert kept[i] in kept;
        ShownCategoryUsesSelectedLanguage(kept[i], lang);
        var k := LanguageContext.FindTranslation(kept[i].translations, lang).value;
        assert screen.cards[i] == CardOf(kept[i], lang);
      }
    }
  }

  /**
   * The fetch does not re-run when only the language changes, so a list
   * filtered under one language is rendered under another: a category with
   * no translation in the new language is named by its first translation.
   */
  lemma LanguageChangeKeepsStaleList()
    ensures var c := Category(5, "", true, [Translation(1, "Hair", "")]);
            var v := Fetch(InitialView(), "salon", Int(1), Response(true, "", [c]));
            && v.categories == [c]
            && Render(v, Int(2)) == Grid([Card(5, "Hair", None, None)])
  {
    var c := Category(5, "", true, [Translation(1, "Hair", "")]);
    assert LanguageContext.Matches(c.translations[0], Int(1));
    assert Shown(c, Int(1));
    assert FilterActive([c], Int(1)) == [c];
    assert LanguageContext.FindTranslation(c.translations, Int(2)).None?;
  }

  // ---------------------------------------------------------------------------
  // The component state

  class CategoriesView {
    var categories: seq<Category>
    var loading: bool
    var error: Option<string>
    /** The tenant the effect last ran for; the effect depends on nothing else. */
    var effectTenant: Option<string>

    function State(): View
      reads this
    {
      View(categories, loading, error)
    }

    constructor ()
      ensures State() == InitialView() && effectTenant == None
    {
      categories, loading, error := [], true, None;
      effectTenant := None;
    }

    /** `fetchCategories`, with the awaited response as a parameter. */
    method FetchCategories(tenant: string, lang: JsNumber, outcome: FetchOutcome)
      modifies this
      ensures State() == Fetch(old(State()), tenant, lang, outcome)
      ensures effectTenant == old(effectTenant)
    {
      if tenant == "" {
        return;
      }
      loading := true;
      error := None;
      match outcome {
        case Response(ok, message, data) =>
          if !ok {
            error := Some(if message != "" then message else FailedToLoad);
          } else {
            categories := FilterActive(data, lang);
          }
        case ThrewError(message) =>
          error := Some(message);
        case ThrewOther =>
          error := Some(UnexpectedError);
      }
      loading := false;
    }

    /**
     * A render with the current props: the effect runs on the first render
     * and whenever the tenant differs from the last run's, whatever the
     * selected language.
     */
    method Rendered(tenant: string, lang: JsNumber, outcome: FetchOutcome)
      modifies this
      ensures effectTenant == Some(tenant)
      ensures old(effectTenant) == Some(tenant) ==> State() == old(State())
      ensures old(effectTenant) != Some(tenant) ==> State() == Fetch(old(State()), tenant, lang, outcome)
    {
      if effectTenant != Some(tenant) {
        FetchCategories(tenant, lang, outcome);
      }
      effectTenant := Some(tenant);
    }
  }
}
