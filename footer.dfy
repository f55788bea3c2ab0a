/**
 * The decisions the storefront footer makes from its props and the selected
 * language: which address to show, which theme colour to trust, and which
 * social links to list, in which order.
 */
module Footer {

  import opened Wrappers
  import opened JsText

  const DefaultThemeColor: string := "#2f27ce"

  /** The footer's props; the optional ones may be absent. */
  datatype FooterProps = FooterProps(
    addressEn: string,
    addressAr: Option<string>,
    themeColor: string,
    slug: string,
    youtubeLink: Option<string>,
    facebookLink: Option<string>,
    instagramLink: Option<string>,
    tikTokLink: Option<string>,
    linkedInLink: Option<string>,
    xLink: Option<string>)

  /** JavaScript truthiness of an optional string. */
  predicate Truthy(s: Option<string>) {
    s.Some? && s.value != ""
  }

  // ---------------------------------------------------------------------------
  // The address

  /** `selectedLanguage === 2 ? (address_Ar || address_En) : address_En` */
  function Address(lang: JsNumber, addressEn: string, addressAr: Option<string>): (r: string)
    ensures r == addressEn || (addressAr.Some? && r == addressAr.value)
    ensures lang != Int(2) ==> r == addressEn
    ensures lang == Int(2) && Truthy(addressAr) ==> r == addressAr.value
  {
    if lang == Int(2) && Truthy(addressAr) then addressAr.value else addressEn
  }

  /**
   * The address block is rendered only for a non-empty address: exactly when
   * the English address is set, or the language is Arabic and the Arabic
   * address is set.
   */
  function AddressShown(lang: JsNumber, addressEn: string, addressAr: Option<string>): (r: bool)
    ensures r <==> addressEn != "" || (lang == Int(2) && Truthy(addressAr))
  {
    Address(lang, addressEn, addressAr) != ""
  }

  // ---------------------------------------------------------------------------
  // The theme colour

  /** `validThemeColor`: the prop unless it is empty, blank or the literal `string`. */
  function ValidThemeColor(themeColor: string): (r: string)
    ensures r == themeColor || r == DefaultThemeColor
    ensures r == themeColor <==> themeColor != "string" && !IsBlank(themeColor)
    ensures r != "string" && !IsBlank(r)
  {
    TrimEmptyIffBlank(themeColor);
    assert !IsBlank(DefaultThemeColor) by { assert !IsWhitespace(DefaultThemeColor[0]); }
    if themeColor != "" && themeColor != "string" && Trim(themeColor) != "" then themeColor
    else DefaultThemeColor
  }

  /** A colour that passed validation passes it again unchanged. */
  lemma ValidThemeColorIdempotent(themeColor: string)
    ensures ValidThemeColor(ValidThemeColor(themeColor)) == ValidThemeColor(themeColor)
  {
  }

  // ---------------------------------------------------------------------------
  // The social links

  /** The platforms the footer links to, in display order. TikTok is not among them. */
  datatype Platform = YouTube | Facebook | Instagram | LinkedIn | X

  /** The `name` each link is keyed and labelled by. */
  function PlatformName(p: Platform): string {
    match p
    case YouTube => "YouTube"
    case Facebook => "Facebook"
    case Instagram => "Instagram"
    case LinkedIn => "LinkedIn"
    case X => "X (Twitter)"
  }

  /** A platform's position in the fixed display order. */
  function Rank(p: Platform): nat {
    match p
    case YouTube => 0
    case Facebook => 1
    case Instagram => 2
    case LinkedIn => 3
    case X => 4
  }

  datatype SocialLink = SocialLink(platform: Platform, url: string)

  /** `link.url && link.url.trim() !== ''`, stated with `IsBlank` (see `UsableIffTrimNonEmpty`). */
  predicate Usable(url: Option<string>) {
    url.Some? && !IsBlank(url.value)
  }

  /** The filter's test as the storefront writes it: defined, non-empty, and non-empty after trimming. */
  lemma UsableIffTrimNonEmpty(url: Option<string>)
    ensures Usable(url) <==> url.Some? && url.value != "" && Trim(url.value) != ""
  {
    if url.Some? {
      TrimEmptyIffBlank(url.value);
    }
  }

  /** The prop each platform's URL comes from. */
  function LinkOf(props: FooterProps, p: Platform): Option<string> {
    match p
    case YouTube => props.youtubeLink
    case Facebook => props.facebookLink
    case Instagram => props.instagramLink
    case LinkedIn => props.linkedInLink
    case X => props.xLink
  }

  /** One entry of the unfiltered list. */
  datatype Candidate = Candidate(platform: Platform, url: Option<string>)

  /** The unfiltered list: every platform once, with its prop, in display order. */
  function Candidates(props: FooterProps): (r: seq<Candidate>)
    ensures |r| == 5 && CandidatesRanked(r)
    ensures forall p: Platform :: r[Rank(p)] == Candidate(p, LinkOf(props, p))
  {
    [ Candidate(YouTube, props.youtubeLink), Candidate(Facebook, props.facebookLink),
      Candidate(Instagram, props.instagramLink), Candidate(LinkedIn, props.linkedInLink),
      Candidate(X, props.xLink) ]
  }

  predicate CandidatesRanked(cs: seq<Candidate>) {
    forall i, j :: 0 <= i < j < |cs| ==> Rank(cs[i].platform) < Rank(cs[j].platform)
  }

  predicate LinksRanked(links: seq<SocialLink>) {
    forall i, j :: 0 <= i < j < |links| ==> Rank(links[i].platform) < Rank(links[j].platform)
  }

  /** `.filter(link => link.url && link.url.trim() !== '')` over the candidates. */
  function KeepUsable(cs: seq<Candidate>): (r: seq<SocialLink>)
    ensures |r| <= |cs|
    ensures forall i :: 0 <= i < |r| ==> Usable(Some(r[i].url))
  {
    if cs == [] then []
    else if Usable(cs[0].url) then [SocialLink(cs[0].platform, cs[0].url.value)] + KeepUsable(cs[1..])
    else KeepUsable(cs[1..])
  }

  /** A link survives exactly when its platform and URL were a candidate and the URL is usable. */
  lemma {:induction false} KeepUsableMembers(cs: seq<Candidate>, l: SocialLink)
    ensures l in KeepUsable(cs) <==> Candidate(l.platform, Some(l.url)) in cs && Usable(Some(l.url))
  {
    if cs != [] {
      KeepUsableMembers(cs[1..], l);
      assert cs == [cs[0]] + cs[1..];
    }
  }

  /** Every surviving link ranks above a bound every candidate ranks above. */
  lemma {:induction false} KeepUsableAbove(cs: seq<Candidate>, bound: nat)
    requires forall i :: 0 <= i < |cs| ==> bound < Rank(cs[i].platform)
    ensures forall j :: 0 <= j < |KeepUsable(cs)| ==> bound < Rank(KeepUsable(cs)[j].platform)
  {
    if cs != [] {
      KeepUsableAbove(cs[1..], bound);
    }
  }

  /** The filter keeps the display order. */
  lemma {:induction false} KeepUsableRanked(cs: seq<Candidate>)
    requires CandidatesRanked(cs)
    ensures LinksRanked(KeepUsable(cs))
  {
    if cs != [] {
      var tail := cs[1..];
      KeepUsableRanked(tail);
      KeepUsableAbove(tail, Rank(cs[0].platform));
    }
  }

  /** `socialLinks` */
  function SocialLinks(props: FooterProps): (r: seq<SocialLink>)
    ensures |r| <= 5
    ensures forall i :: 0 <= i < |r| ==> !IsBlank(r[i].url)
  {
    KeepUsable(Candidates(props))
  }

  /** The links follow the fixed order YouTube, Facebook, Instagram, LinkedIn, X. */
  lemma SocialLinksRanked(props: FooterProps)
    ensures LinksRanked(SocialLinks(props))
  {
    KeepUsableRanked(Candidates(props));
  }

  /** A platform is listed exactly when its prop holds a usable URL, and it is listed with that URL. */
  lemma SocialLinksMembers(props: FooterProps, p: Platform)
    ensures (exists i :: 0 <= i < |SocialLinks(props)| && SocialLinks(props)[i].platform == p) <==>
              Usable(LinkOf(props, p))
    ensures forall i :: 0 <= i < |SocialLinks(props)| && SocialLinks(props)[i].platform == p ==>
              Some(SocialLinks(props)[i].url) == LinkOf(props, p)
  {
    var cs := Candidates(props);
    var r := SocialLinks(props);
    forall i | 0 <= i < |r| && r[i].platform == p ensures Some(r[i].url) == LinkOf(props, p) {
      KeepUsableMembers(cs, r[i]);
    }
    if Usable(LinkOf(props, p)) {
      var l := SocialLink(p, LinkOf(props, p).value);
      assert cs[Rank(p)] == Candidate(l.platform, Some(l.url));
      KeepUsableMembers(cs, l);
      var i :| 0 <= i < |r| && r[i] == l;
    }
  }

  /**
   * Each rendered link is keyed and titled by its platform's name; no two
   * links share that key.
   */
  lemma LinkKeysUnique(props: FooterProps)
    ensures forall i, j :: 0 <= i < j < |SocialLinks(props)| ==>
              PlatformName(SocialLinks(props)[i].platform) != PlatformName(SocialLinks(props)[j].platform)
  {
    SocialLinksRanked(props);
  }

  /** The TikTok prop has no effect on the links shown. */
  lemma TikTokNeverShown(props: FooterProps, tikTok: Option<string>)
    ensures SocialLinks(props.(tikTokLink := tikTok)) == SocialLinks(props)
  {
  }

  /**
   * The social block is rendered only when some link survives the filter:
   * exactly when one of the five platforms has a usable URL.
   */
  function SocialBlockShown(props: FooterProps): (r: bool)
    ensures r <==> Usable(props.youtubeLink) || Usable(props.facebookLink) || Usable(props.instagramLink) ||
                   Usable(props.linkedInLink) || Usable(props.xLink)
  {
    var links := SocialLinks(props);
    SocialLinksMembers(props, YouTube);
    SocialLinksMembers(props, Facebook);
    SocialLinksMembers(props, Instagram);
    SocialLinksMembers(props, LinkedIn);
    SocialLinksMembers(props, X);
    if |links| > 0 then
      SocialLinksMembers(props, links[0].platform);
      true
    else false
  }
}
