# Multlink-QR page script, modelled in Dafny

The system is a "link-in-bio" landing page. One browser script (`script.js`)
fetches a JSON configuration and then, in a single synchronous pass, writes
the page: four theme colour variables on the root style, the document title,
the Open Graph and Twitter card meta tags, the title and subtitle texts, the
logo, a list of link cards and a list of social links.

This project models that render pass once the configuration has been parsed.

- `js_values.dfy` (module `JsValues`) holds the JavaScript value rules. A
  configuration field is an `Option<string>`. `Truthy` is JavaScript
  truthiness, so a missing field and `""` behave the same. `OrElse` is the
  `a || b` fallback and `FirstTruthy` is the meaning of an `a || b || c`
  priority chain. The module also holds the `\s` character class, the
  stripping done by `replace(/\s+/g, "")`, and the decimal text of a
  position number with its inverse.
- `configuration.dfy` (module `Configuration`) holds the configuration, its
  link items and its social items.
- `meta_tags.dfy` (module `MetaTags`) models the document head as a class
  `Head` that holds a `seq<Tag>`. Each tag is keyed by `property` or by
  `name`. `Find` is the scan `querySelector` performs. `Upsert` is the body
  shared by `setMeta` and `setTwitterMeta`. `Upserted`, `Step` and
  `ApplyAll` are the value-level specifications these methods are proved
  against, and the lemmas prove the frame, the fixpoint and the idempotence
  of the upsert.
- `link_cards.dfy` (module `LinkCards`) gives the per-item rules of a card:
  the visual slot, the label, the `tel:` link, the sub line and whether it is
  appended, and the card's target.
- `socials.dfy` (module `Socials`) gives the per-entry rule of a social link.
- `page.dfy` (module `Page`) holds the class `Document`. Its methods perform
  the render steps in source order, and the two list renderings are loops
  that clear and then append. `Rendered` is the whole pass as a function on
  a `PageState` value. `Document.Render` is proved against it, and
  `RenderIdempotent` proves that a second pass with the same configuration
  changes nothing.

## Model

| member | source | states |
|---|---|---|
| `JsValues.StripWhitespace` | script.js:125 | the stripped phone number contains no `\s` character and is no longer than the input |
| `JsValues.StripKeepsClean` | script.js:125 | a string without whitespace is left exactly as it was |
| `JsValues.StripOneChar` | script.js:125 | a single `\s` character strips to the empty string and any other single character is kept |
| `JsValues.StripDistributes` | script.js:125 | stripping works character by character: it distributes over concatenation |
| `JsValues.StripIdempotent` | script.js:125 | stripping an already stripped number changes nothing |
| `JsValues.StripPhoneExample` | script.js:125 | "+1 234 567" strips to "+1234567" |
| `JsValues.NatToString` | script.js:119 | the position number is rendered as a non-empty string of decimal digits with no leading zero |
| `JsValues.NatToStringRoundTrip` | script.js:119 | reading the rendered digits back as a decimal number gives the number |
| `JsValues.FirstTruthy` | script.js:120 | a chain of JavaScript or-operators selects the first truthy candidate: every candidate before it is falsy, and none is selected only when all are falsy |
| `JsValues.AssignedString` | script.js:154 | assigning a present url gives that string; assigning a missing one gives the text "undefined" |
| `Configuration.LinkItems` | script.js:86 | the links list is the configured array when present and empty when missing |
| `Configuration.SocialItems` | script.js:152 | the socials list is the configured array when present and empty when missing |
| `MetaTags.FirstIndex` | script.js:32 | the tag the selector finds carries the key and no earlier tag does; nothing is found exactly when no tag carries the key |
| `MetaTags.Upserted` | script.js:30-39 | after an upsert the first tag with the key has the new content; it is the tag that was found, or a new tag appended at the end; the head grows by one exactly when no tag had the key; every other tag is unchanged; no tag changes its key |
| `MetaTags.StepShows` | script.js:30-39 | after a setMeta call with truthy content, the head shows that content under the key |
| `MetaTags.StepFixpoint` | script.js:31-38 | a setMeta call whose content the head already shows changes nothing |
| `MetaTags.UpsertIdempotent` | script.js:32-38 | repeating the same upsert leaves the head as the first upsert left it |
| `MetaTags.UpsertKeepsOtherKeys` | script.js:32-38 | an upsert under one key does not change which tag is found for any other key |
| `MetaTags.StepKeepsShown` | script.js:30-39 | a setMeta call under another key keeps the head showing an entry it already showed |
| `MetaTags.ApplyAllShows` | script.js:30-62 | after a run of setMeta/setTwitterMeta calls with distinct keys, the head shows every call's content |
| `MetaTags.ApplyAllFixpoint` | script.js:30-62 | a run of calls whose contents the head already shows changes nothing |
| `MetaTags.ApplyAllIdempotent` | script.js:30-62 | repeating a run of calls with distinct keys changes nothing |
| `MetaTags.ShareEntries` | script.js:41-62 | the page sets nine entries: five Open Graph entries keyed by `property`, then four Twitter entries keyed by `name` |
| `MetaTags.ShareEntriesDistinct` | script.js:41-62 | the nine sharing keys are pairwise different |
| `MetaTags.Head.Find` | script.js:32 | the scan of the head returns the position of the first tag with the key, or nothing |
| `MetaTags.Head.Upsert` | script.js:30-39 | with falsy content the head is unchanged; otherwise the head becomes `Upserted` of the old head |
| `MetaTags.Head.SetMeta` | script.js:30-39 | one Open Graph upsert keyed by `property` |
| `MetaTags.Head.SetTwitterMeta` | script.js:48-57 | one Twitter card upsert keyed by `name` |
| `LinkCards.SlotOf` | script.js:99-113 | an image always wins; a glyph appears only when neither image nor icon is truthy, and it carries `iconName`; the slot is empty exactly when all three fields are falsy |
| `LinkCards.SlotByPriority` | script.js:99-113 | the slot is the one that the first truthy field of `image`, `icon`, `iconName` selects |
| `LinkCards.Ordinal` | script.js:119 | the ordinal is never empty; it is `number` when that is truthy, and otherwise a run of digits followed by "." whose digits read back as the 1-based position |
| `LinkCards.Label` | script.js:120 | the label is exactly the ordinal, one space and the display name |
| `LinkCards.DisplayName` | script.js:120 | the name part of the label is never empty and is the title, the name or "Location" |
| `LinkCards.LabelFormat` | script.js:119-120 | the label is the ordinal, a space and the name; without a truthy `number` the ordinal is the digits of the 1-based position followed by ".", and those digits read back as that position; the name follows the title > name > "Location" priority |
| `LinkCards.TelHref` | script.js:125 | the dial target starts with "tel:" and the rest contains no whitespace |
| `LinkCards.TelHrefExample` | script.js:125 | "+1 234 567" dials `tel:+1234567` |
| `LinkCards.CardOf` | script.js:86-141 | the card navigates to `url` when it is truthy and to "#" otherwise; its slot, label and sub line are the ones `SlotOf`, `Label` and `SubOf` give for the item and its position |
| `LinkCards.SubOf` | script.js:121-136 | a truthy phone always gives the phone link, so the address is never shown; the sub element is omitted exactly when phone, address and description are all falsy; a text sub line is never empty |
| `LinkCards.SubByPriority` | script.js:121-136 | the sub line is the one that the first truthy field of `phone`, `address`, `description` selects |
| `LinkCards.ShopCardExample` | script.js:86-141 | an entry with only a url and the title "Shop" at position 0 gives the card "1. Shop" with that url, an empty slot and no sub line |
| `LinkCards.PhoneCardExample` | script.js:123-133 | an entry with the phone "+1 234 567" and an address shows the phone link `tel:+1234567` and not the address |
| `Socials.PlatformLabel` | script.js:160-163 | the alt text or visible text is never empty; it is the platform when the platform is truthy and "social" otherwise |
| `Socials.SocialOf` | script.js:152-165 | the link targets the assigned url; it shows an image exactly when `icon` is truthy, with the platform (or "social") as alt, and otherwise shows that label as text |
| `Socials.BareSocialExample` | script.js:162-164 | an entry with no icon and a missing or empty platform shows the text "social" |
| `Page.Themed` | script.js:19-22 | each colour variable is written exactly when its field is truthy; otherwise, and for every other style key, the prior entry (or its absence) is untouched |
| `Page.ThemedIdempotent` | script.js:19-22 | applying the colours twice equals applying them once |
| `Page.LogoAfter` | script.js:71-80 | with a truthy logo the image gets it as source and the title (or "logo") as alt, and the wrapper's visibility is unchanged; without one the wrapper is hidden and the image untouched |
| `Page.RenderIdempotent` | script.js:18-166 | a second render pass with the same configuration and page URL leaves the page exactly as the first pass left it |
| `Page.JaneExample` | script.js:25-141 | the configuration with title "Jane" and one link ("https://a.com", "Shop") sets the document title "Jane" and renders the single card "1. Shop" with no sub line |
| `Page.Document.ApplyColors` | script.js:19-22 | the root style becomes `Themed` of the old style |
| `Page.Document.ApplyTitle` | script.js:25-27 | the document title is written only when the title is truthy |
| `Page.Document.ApplyShareMeta` | script.js:41-62 | the head becomes the old head with the nine sharing entries applied in source order |
| `Page.Document.ApplyTexts` | script.js:65-66 | the title and subtitle texts are always written, with "" for a falsy field |
| `Page.Document.ApplyLogo` | script.js:71-80 | the logo becomes `LogoAfter` of the old logo |
| `Page.Document.RenderLinks` | script.js:83-142 | the container is cleared, then it holds one card per entry, in input order, and the card at position i is `CardOf(items[i], i)` whatever the container held before |
| `Page.Document.RenderSocials` | script.js:150-166 | the container is cleared, then it holds one social link per entry, in input order, whatever it held before |
| `Page.Document.Render` | script.js:18-166 | the page after the pass is `Rendered` of the page before it |

## Left out

- The fetch, the `res.ok` check, JSON parsing and the error logging (script.js:4-15) are network I/O and asynchronous control flow. The model starts from an already parsed configuration. The failure path, which returns before touching the page, has no counterpart here.
- The `lucide.createIcons()` call (script.js:145-147) calls a foreign global library whose behaviour is not visible. A glyph slot records only the icon name it would resolve.
- The logo `error` listener (script.js:75-77) is an asynchronous browser callback. Only the synchronous branch is modelled.
- `window.location.href` (script.js:45) is the `pageUrl` parameter.
- The model does not cover `className`, `target`, `rel`, the empty `alt` of card images, the phone link's `stopPropagation` handler (script.js:127), `innerHTML` parsing, node identity or CSS effects. Rendered elements are plain values.
- Every configuration field is a string or missing. A JSON number in `number` or `phone` is not modelled. In JavaScript a numeric `0` would be falsy, and `phone.replace` would throw on a number.
- The browser resolves the `href` of an anchor against the page URL. The model records the string that was assigned. A missing social `url` is assigned as `undefined`, which becomes the text "undefined".
- A meta tag has exactly one key attribute, either `property` or `name`. A tag that carries both is not modelled. The head stands for every meta tag in the document, since `querySelector` searches the whole document.
- Regular-expression semantics beyond `\s` are not modelled. The `\s+` to `""` replacement is written as dropping each whitespace character, which gives the same string.
