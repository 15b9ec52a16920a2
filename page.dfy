/**
 * The render pass of the page script, run once the configuration has been
 * fetched and parsed: theme variables, document title, sharing metadata,
 * heading texts, logo, the links list and the socials list, in that order.
 */
module Page {
  import opened JsValues
  import opened Configuration
  import opened MetaTags
  import opened LinkCards
  import opened Socials

  /** The two maps agree on key `k`: both lack it or both map it to the same value. */
  predicate SameAt(m: map<string, string>, m': map<string, string>, k: string)
  {
    (k !in m && k !in m') || (k in m && k in m' && m[k] == m'[k])
  }

  /**
   * `if (field) root.style.setProperty(name, field)`: written when the field
   * is truthy, otherwise the entry stays as it was.
   */
  predicate ThemeVarApplied(before: map<string, string>, after: map<string, string>,
                            name: string, field: Option<string>)
  {
    if Truthy(field) then name in after && after[name] == field.value
    else SameAt(before, after, name)
  }

  function SetIfTruthy(style: map<string, string>, name: string, field: Option<string>): map<string, string>
  {
    if Truthy(field) then style[name := field.value] else style
  }

  /** The root style after the four colour assignments. */
  function Themed(style: map<string, string>, cfg: Config): (r: map<string, string>)
    ensures ThemeVarApplied(style, r, "--bg", cfg.bgColor)
    ensures ThemeVarApplied(style, r, "--card", cfg.cardColor)
    ensures ThemeVarApplied(style, r, "--text", cfg.textColor)
    ensures ThemeVarApplied(style, r, "--accent", cfg.accentColor)
    ensures forall k :: k != "--bg" && k != "--card" && k != "--text" && k != "--accent" ==> SameAt(style, r, k)
  {
    var s1 := SetIfTruthy(style, "--bg", cfg.bgColor);
    var s2 := SetIfTruthy(s1, "--card", cfg.cardColor);
    var s3 := SetIfTruthy(s2, "--text", cfg.textColor);
    SetIfTruthy(s3, "--accent", cfg.accentColor)
  }

  /** Applying the colours again changes nothing. */
  lemma ThemedIdempotent(style: map<string, string>, cfg: Config)
    ensures Themed(Themed(style, cfg), cfg) == Themed(style, cfg)
  {
  }

  /** The logo image and its wrapper. */
  datatype Logo = Logo(src: string, alt: string, wrapHidden: bool)

  /**
   * With a logo the image gets its source and the alt text `title || "logo"`;
   * without one the wrapper is hidden.
   */
  function LogoAfter(l: Logo, cfg: Config): (r: Logo)
    ensures Truthy(cfg.logo) ==> r == Logo(cfg.logo.value, OrElse(cfg.title, "logo"), l.wrapHidden)
    ensures !Truthy(cfg.logo) ==> r.wrapHidden && r.src == l.src && r.alt == l.alt
  {
    if Truthy(cfg.logo) then l.(src := cfg.logo.value, alt := OrElse(cfg.title, "logo"))
    else l.(wrapHidden := true)
  }

  /** Everything the render pass writes, as a value. */
  datatype PageState = PageState(
    style: map<string, string>,
    docTitle: string,
    tags: seq<Tag>,
    titleText: string,
    subtitleText: string,
    logo: Logo,
    cards: seq<Card>,
    socials: seq<SocialLink>)

  /** The page after one render pass with `cfg`, from the page `v`. */
  function Rendered(v: PageState, cfg: Config, pageUrl: string): PageState
  {
    PageState(Themed(v.style, cfg),
              if Truthy(cfg.title) then cfg.title.value else v.docTitle,
              ApplyAll(v.tags, ShareEntries(cfg, pageUrl)),
              OrElse(cfg.title, ""),
              OrElse(cfg.subtitle, ""),
              LogoAfter(v.logo, cfg),
              CardsFor(LinkItems(cfg)),
              SocialsFor(SocialItems(cfg)))
  }

  /** A second render pass with the same configuration leaves the page as the first left it. */
  lemma RenderIdempotent(v: PageState, cfg: Config, pageUrl: string)
    ensures Rendered(Rendered(v, cfg, pageUrl), cfg, pageUrl) == Rendered(v, cfg, pageUrl)
  {
    ShareEntriesDistinct(cfg, pageUrl);
    ApplyAllIdempotent(v.tags, ShareEntries(cfg, pageUrl));
    ThemedIdempotent(v.style, cfg);
  }

  /**
   * The configuration `{ "title": "Jane", "links": [{ "url": "https://a.com", "title": "Shop" }] }`
   * sets the document title to "Jane" and renders one card "1. Shop" that
   * navigates to "https://a.com" and has no sub line.
   */
  lemma JaneExample(v: PageState, pageUrl: string)
    ensures var item := LinkItem(Some("https://a.com"), None, None, None, Some("Shop"),
                                 None, None, None, None, None);
            var cfg := Config(None, None, None, None, Some("Jane"), None, None, Some([item]), None);
            var r := Rendered(v, cfg, pageUrl);
            r.docTitle == "Jane" && r.titleText == "Jane" && r.subtitleText == ""
            && r.cards == [Card("https://a.com", Empty, "1. Shop", None)]
            && r.socials == [] && r.logo.wrapHidden && r.style == v.style
  {
    var item := LinkItem(Some("https://a.com"), None, None, None, Some("Shop"),
                         None, None, None, None, None);
    ShopCardExample();
    var cfg := Config(None, None, None, None, Some("Jane"), None, None, Some([item]), None);
    assert CardsFor(LinkItems(cfg)) == [CardOf(item, 0)];
  }

  /** The live page: the root style, the document title and the rendered elements. */
  class Document {
    const head: Head
    var style: map<string, string>
    var title: string
    var titleText: string
    var subtitleText: string
    var logo: Logo
    var cards: seq<Card>
    var socialLinks: seq<SocialLink>

    /** The page as its static markup left it, before the render pass. */
    constructor (head: Head, initial: PageState)
      requires head.tags == initial.tags
      ensures this.head == head && State() == initial
    {
      this.head := head;
      style := initial.style;
      title := initial.docTitle;
      titleText := initial.titleText;
      subtitleText := initial.subtitleText;
      logo := initial.logo;
      cards := initial.cards;
      socialLinks := initial.socials;
    }

    function State(): PageState
      reads this, head
    {
      PageState(style, title, head.tags, titleText, subtitleText, logo, cards, socialLinks)
    }

    /** The four conditional `root.style.setProperty` calls. */
    method ApplyColors(cfg: Config)
      modifies this`style
      ensures style == Themed(old(style), cfg)
    {
      if Truthy(cfg.bgColor) { style := style["--bg" := cfg.bgColor.value]; }
      if Truthy(cfg.cardColor) { style := style["--card" := cfg.cardColor.value]; }
      if Truthy(cfg.textColor) { style := style["--text" := cfg.textColor.value]; }
      if Truthy(cfg.accentColor) { style := style["--accent" := cfg.accentColor.value]; }
    }

    /** `document.title` is written only when the title is truthy. */
    method ApplyTitle(cfg: Config)
      modifies this`title
      ensures Truthy(cfg.title) ==> title == cfg.title.value
      ensures !Truthy(cfg.title) ==> title == old(title)
    {
      if Truthy(cfg.title) {
        title := cfg.title.value;
      }
    }

    /** The five Open Graph and four Twitter card upserts, in source order. */
    method ApplyShareMeta(cfg: Config, pageUrl: string)
      modifies head
      ensures head.tags == ApplyAll(old(head.tags), ShareEntries(cfg, pageUrl))
    {
      ghost var t0 := head.tags;
      ghost var es := ShareEntries(cfg, pageUrl);
      assert es[..0] == [];
      head.SetMeta("og:title", cfg.title);
      ApplyAllSnoc(t0, es, 0);
      head.SetMeta("og:description", cfg.subtitle);
      ApplyAllSnoc(t0, es, 1);
      head.SetMeta("og:image", cfg.logo);
      ApplyAllSnoc(t0, es, 2);
      head.SetMeta("og:type", Some("website"));
      ApplyAllSnoc(t0, es, 3);
      head.SetMeta("og:url", Some(pageUrl));
      ApplyAllSnoc(t0, es, 4);
      head.SetTwitterMeta("twitter:card", Some("summary_large_image"));
      ApplyAllSnoc(t0, es, 5);
      head.SetTwitterMeta("twitter:title", cfg.title);
      ApplyAllSnoc(t0, es, 6);
      head.SetTwitterMeta("twitter:description", cfg.subtitle);
      ApplyAllSnoc(t0, es, 7);
      head.SetTwitterMeta("twitter:image", cfg.logo);
      ApplyAllSnoc(t0, es, 8);
      assert es[..9] == es;
    }

    /** The heading texts are always written, with "" for a falsy field. */
    method ApplyTexts(cfg: Config)
      modifies this`titleText, this`subtitleText
      ensures titleText == OrElse(cfg.title, "") && subtitleText == OrElse(cfg.subtitle, "")
    {
      titleText := OrElse(cfg.title, "");
      subtitleText := OrElse(cfg.subtitle, "");
    }

    /** The synchronous part of the logo handling. */
    method ApplyLogo(cfg: Config)
      modifies this`logo
      ensures logo == LogoAfter(old(logo), cfg)
    {
      if Truthy(cfg.logo) {
        logo := logo.(src := cfg.logo.value);
        logo := logo.(alt := OrElse(cfg.title, "logo"));
      } else {
        logo := logo.(wrapHidden := true);
      }
    }

    /** Clears the links container, then appends one card per entry in order. */
    method RenderLinks(items: seq<LinkItem>)
      modifies this`cards
      ensures |cards| == |items|
      ensures forall i :: 0 <= i < |items| ==> cards[i] == CardOf(items[i], i)
      ensures cards == CardsFor(items)
    {
      cards := [];
      var i := 0;
      while i < |items|
        invariant 0 <= i <= |items|
        invariant |cards| == i
        invariant forall j :: 0 <= j < i ==> cards[j] == CardOf(items[j], j)
      {
        cards := cards + [CardOf(items[i], i)];
        i := i + 1;
      }
    }

    /** Clears the socials container, then appends one link per entry in order. */
    method RenderSocials(items: seq<SocialItem>)
      modifies this`socialLinks
      ensures |socialLinks| == |items|
      ensures forall i :: 0 <= i < |items| ==> socialLinks[i] == SocialOf(items[i])
      ensures socialLinks == SocialsFor(items)
    {
      socialLinks := [];
      for i := 0 to |items|
        invariant |socialLinks| == i
        invariant forall j :: 0 <= j < i ==> socialLinks[j] == SocialOf(items[j])
      {
        socialLinks := socialLinks + [SocialOf(items[i])];
      }
    }

    /** The whole render pass after a successful fetch. */
    method Render(cfg: Config, pageUrl: string)
      modifies this, head
      ensures State() == Rendered(old(State()), cfg, pageUrl)
    {
      ApplyColors(cfg);
      ApplyTitle(cfg);
      ApplyShareMeta(cfg, pageUrl);
      ApplyTexts(cfg);
      ApplyLogo(cfg);
      RenderLinks(LinkItems(cfg));
      RenderSocials(SocialItems(cfg));
    }
  }
}
