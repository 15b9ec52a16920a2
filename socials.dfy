/**
 * The per-entry rule of the socials list: each entry becomes a link that
 * shows either an icon image or the platform name as text.
 */
module Socials {
  import opened JsValues
  import opened Configuration

  /** What a social link shows. */
  datatype SocialBody = IconImage(src: string, alt: string) | PlainText(text: string)

  /** A rendered social link; `href` is the string the anchor received. */
  datatype SocialLink = SocialLink(href: string, body: SocialBody)

  /** `s.platform || "social"`: the alt text of the icon, or the visible text. */
  function PlatformLabel(s: SocialItem): (r: string)
    ensures r != ""
    ensures Truthy(s.platform) ==> r == s.platform.value
    ensures !Truthy(s.platform) ==> r == "social"
  {
    OrElse(s.platform, "social")
  }

  /** The link one entry yields. */
  function SocialOf(s: SocialItem): (r: SocialLink)
    ensures r.href == AssignedString(s.url)
    ensures r.body.IconImage? <==> Truthy(s.icon)
    ensures r.body.IconImage? ==> r.body.src == s.icon.value && r.body.alt == PlatformLabel(s)
    ensures r.body.PlainText? ==> r.body.text == PlatformLabel(s)
  {
    if Truthy(s.icon) then SocialLink(AssignedString(s.url), IconImage(s.icon.value, PlatformLabel(s)))
    else SocialLink(AssignedString(s.url), PlainText(PlatformLabel(s)))
  }

  /** The links of the whole list, one per entry, in input order. */
  function SocialsFor(items: seq<SocialItem>): seq<SocialLink>
  {
    seq(|items|, i requires 0 <= i < |items| => SocialOf(items[i]))
  }

  /** An entry with neither icon nor platform (missing or empty) shows the text "social". */
  lemma BareSocialExample(url: Option<string>, platform: Option<string>)
    requires platform == None || platform == Some("")
    ensures SocialOf(SocialItem(url, None, platform)).body == PlainText("social")
  {
  }
}
