/**
 * The parsed configuration document the page script renders from. Every
 * field is optional; a string field that is missing or empty is skipped
 * or replaced by a fallback, never treated as an error.
 */
module Configuration {
  import opened JsValues

  /** One entry of `links`: a clickable card. */
  datatype LinkItem = LinkItem(
    url: Option<string>,
    image: Option<string>,
    icon: Option<string>,
    iconName: Option<string>,
    title: Option<string>,
    name: Option<string>,
    number: Option<string>,
    phone: Option<string>,
    address: Option<string>,
    description: Option<string>)

  /** One entry of `socials`: a link shown as an icon or as its platform name. */
  datatype SocialItem = SocialItem(
    url: Option<string>,
    icon: Option<string>,
    platform: Option<string>)

  datatype Config = Config(
    bgColor: Option<string>,
    cardColor: Option<string>,
    textColor: Option<string>,
    accentColor: Option<string>,
    title: Option<string>,
    subtitle: Option<string>,
    logo: Option<string>,
    links: Option<seq<LinkItem>>,
    socials: Option<seq<SocialItem>>)

  /** `cfg.links || []`: an array is always truthy, a missing one reads as empty. */
  function LinkItems(cfg: Config): (items: seq<LinkItem>)
    ensures cfg.links.Some? ==> items == cfg.links.value
    ensures cfg.links.None? ==> items == []
  {
    match cfg.links
    case Some(items) => items
    case None => []
  }

  /** `cfg.socials || []`. */
  function SocialItems(cfg: Config): (items: seq<SocialItem>)
    ensures cfg.socials.Some? ==> items == cfg.socials.value
    ensures cfg.socials.None? ==> items == []
  {
    match cfg.socials
    case Some(items) => items
    case None => []
  }
}
