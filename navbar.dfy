/**
 * The decisions the storefront navigation bar makes from its props and the
 * cart: the cart badge and its colour, the logo source, and the two routes.
 */
module Navbar {

  import opened Wrappers
  import opened JsText
  import CartContext
  import Categories
  import Footer

  const DefaultLogo: string := "/SalonyAI-Icon.png"
  const DefaultBadgeColor: string := "#2f27ce"
  const BadgeCap: string := "99+"

  /** The badge label, or `None` when the badge is not rendered. */
  function BadgeLabel(count: int): (r: Option<string>)
    ensures r.Some? <==> count > 0
    ensures count > 99 ==> r == Some(BadgeCap)
    ensures 0 < count <= 99 ==> r.Some? && AllDigits(r.value) && NumberOf(r.value) == Int(count)
    ensures 0 < count <= 99 ==> r == Some(IntToString(count)) && r.value[0] != '0'
  {
    if count <= 0 then None
    else if count > 99 then Some(BadgeCap)
    else
      NumberOfIntToString(count);
      Some(IntToString(count))
  }

  /** The badge for the current cart: shown exactly when the item count is positive. */
  function CartBadge(items: seq<CartContext.CartItem>): (r: Option<string>)
    ensures r.Some? <==> CartContext.ItemCount(items) > 0
    ensures items == [] ==> r == None
  {
    BadgeLabel(CartContext.ItemCount(items))
  }

  /**
   * With no negative quantities, the badge is rendered exactly when some
   * item in the cart has a positive quantity.
   */
  lemma BadgeShownIffSomethingInCart(items: seq<CartContext.CartItem>)
    requires forall i :: 0 <= i < |items| ==> items[i].quantity >= 0
    ensures CartBadge(items).Some? <==> exists i :: 0 <= i < |items| && items[i].quantity > 0
  {
    CartContext.ItemCountPositive(items);
  }

  /** `themeColor || '#2f27ce'` */
  function BadgeColor(themeColor: string): (r: string)
    ensures r != ""
    ensures themeColor != "" ==> r == themeColor
    ensures themeColor == "" ==> r == DefaultBadgeColor
  {
    if themeColor != "" then themeColor else DefaultBadgeColor
  }

  /**
   * The badge accepts colours the footer rejects: the literal `string` and
   * a blank colour are used as given here, while the footer replaces them.
   */
  lemma BadgeColorLaxerThanFooter()
    ensures BadgeColor("string") == "string" && Footer.ValidThemeColor("string") == Footer.DefaultThemeColor
    ensures BadgeColor(" ") == " " && Footer.ValidThemeColor(" ") == Footer.DefaultThemeColor
  {
  }

  /** `logoUrl && logoUrl.trim() !== '' ? logoUrl : '/SalonyAI-Icon.png'` */
  function LogoSource(logoUrl: string): (r: string)
    ensures !IsBlank(r)
    ensures !IsBlank(logoUrl) ==> r == logoUrl
    ensures IsBlank(logoUrl) ==> r == DefaultLogo
  {
    TrimEmptyIffBlank(logoUrl);
    assert !IsBlank(DefaultLogo) by { assert !IsWhitespace(DefaultLogo[0]); }
    if logoUrl != "" && Trim(logoUrl) != "" then logoUrl else DefaultLogo
  }

  /** The logo link, `/${slug}`: for a slug without `/`, the tenant's home page. */
  function HomeLink(slug: string): (r: string)
    ensures |r| == |slug| + 1 && r[0] == '/' && r[1..] == slug
    ensures '/' !in slug ==> Categories.SlugOf(r) == slug
  {
    if '/' !in slug then Categories.SlugOfTenantPage(slug, ""); "/" + slug
    else "/" + slug
  }

  /** The cart button's route, `/${slug}/cart`: the cart page under the same slug. */
  function CartLink(slug: string): (r: string)
    ensures r == HomeLink(slug) + "/cart"
    ensures '/' !in slug ==> Categories.SlugOf(r) == slug
  {
    if '/' !in slug then
      Categories.SlugOfTenantPage(slug, "cart");
      assert "/" + slug + "/cart" == "/" + slug + "/" + "cart";
      "/" + slug + "/cart"
    else "/" + slug + "/cart"
  }
}
