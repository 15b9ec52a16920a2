/**
 * The per-item rules of the links list: what one configuration entry turns
 * into when it is rendered as a card at a given position.
 */
module LinkCards {
  import opened JsValues
  import opened Configuration

  /** What the card's `fav` slot holds: an image, an icon-font placeholder, or nothing. */
  datatype Slot = Empty | Img(src: string) | Glyph(iconName: string)

  /** The content of the card's `sub` line: a dialable link or plain text. */
  datatype Sub = PhoneLink(href: string, text: string) | Caption(text: string)

  /** A rendered card; `sub` is `None` when the `sub` element is not appended. */
  datatype Card = Card(href: string, slot: Slot, labelText: string, sub: Option<Sub>)

  /** The visual slot: `image`, else `icon`, else `iconName`, else nothing. */
  function SlotOf(item: LinkItem): (s: Slot)
    ensures Truthy(item.image) ==> s == Img(item.image.value)
    ensures s.Glyph? ==> !Truthy(item.image) && !Truthy(item.icon) && item.iconName == Some(s.iconName)
    ensures s.Empty? <==> !Truthy(item.image) && !Truthy(item.icon) && !Truthy(item.iconName)
  {
    if Truthy(item.image) then Img(item.image.value)
    else if Truthy(item.icon) then Img(item.icon.value)
    else if Truthy(item.iconName) then Glyph(item.iconName.value)
    else Empty
  }

  /** The slot is exactly the one the first truthy field of `image`, `icon`, `iconName` selects. */
  lemma SlotByPriority(item: LinkItem)
    ensures var cs := [item.image, item.icon, item.iconName];
            match FirstTruthy(cs)
            case None => SlotOf(item) == Empty
            case Some(k) => SlotOf(item) == if k < 2 then Img(cs[k].value) else Glyph(cs[k].value)
  {
    var cs := [item.image, item.icon, item.iconName];
    if FirstTruthy(cs).None? {
      assert !Truthy(cs[0]) && !Truthy(cs[1]) && !Truthy(cs[2]);
    }
  }

  /** The ordinal: an explicit `number`, else the 1-based position followed by a period. */
  function Ordinal(item: LinkItem, idx: nat): (r: string)
    ensures r != ""
    ensures Truthy(item.number) ==> r == item.number.value
    ensures !Truthy(item.number) ==>
              r[|r| - 1] == '.'
              && (forall i :: 0 <= i < |r| - 1 ==> IsDigit(r[i]))
              && DecimalValue(r[..|r| - 1]) == idx + 1
  {
    NatToStringRoundTrip(idx + 1);
    assert (NatToString(idx + 1) + ".")[..|NatToString(idx + 1)|] == NatToString(idx + 1);
    if Truthy(item.number) then item.number.value else NatToString(idx + 1) + "."
  }

  /** `item.title || item.name || "Location"`. */
  function DisplayName(item: LinkItem): (r: string)
    ensures r != ""
    ensures item.title == Some(r) || item.name == Some(r) || r == "Location"
  {
    OrElse(item.title, OrElse(item.name, "Location"))
  }

  /** The card's label text. */
  function Label(item: LinkItem, idx: nat): (r: string)
    ensures var n := |Ordinal(item, idx)|;
            |r| > n + 1 && r[..n] == Ordinal(item, idx) && r[n] == ' ' && r[n + 1..] == DisplayName(item)
  {
    Ordinal(item, idx) + " " + DisplayName(item)
  }

  /**
   * The label is the ordinal, a space and the display name; without an
   * explicit number the ordinal is digits that read back as `idx + 1`,
   * followed by a period. The display name follows the title > name
   * priority.
   */
  lemma LabelFormat(item: LinkItem, idx: nat)
    ensures Truthy(item.number) ==> Label(item, idx) == item.number.value + " " + DisplayName(item)
    ensures !Truthy(item.number) ==>
              var n := NatToString(idx + 1);
              Label(item, idx) == n + ". " + DisplayName(item) && DecimalValue(n) == idx + 1
    ensures match FirstTruthy([item.title, item.name])
            case None => DisplayName(item) == "Location"
            case Some(k) => DisplayName(item) == [item.title, item.name][k].value
  {
    var n := NatToString(idx + 1);
    assert (n + ".") + " " + DisplayName(item) == n + ". " + DisplayName(item);
    NatToStringRoundTrip(idx + 1);
    var cs := [item.title, item.name];
    if FirstTruthy(cs).None? {
      assert !Truthy(cs[0]) && !Truthy(cs[1]);
    }
  }

  /** The `tel:` target: the phone number with every whitespace run removed. */
  function TelHref(phone: string): (r: string)
    ensures |r| >= 4 && r[..4] == "tel:"
    ensures NoWhitespace(r[4..])
  {
    var r := "tel:" + StripWhitespace(phone);
    assert r[4..] == StripWhitespace(phone);
    r
  }

  /** The `sub` element's content before the decision whether to append it. */
  function SubContent(item: LinkItem): Sub
  {
    if Truthy(item.phone) then PhoneLink(TelHref(item.phone.value), item.phone.value)
    else if Truthy(item.address) then Caption(item.address.value)
    else Caption(OrElse(item.description, ""))
  }

  /**
   * The `sub` element as appended to the card: present when it has text or
   * holds the phone link, omitted otherwise.
   */
  function SubOf(item: LinkItem): (r: Option<Sub>)
    ensures Truthy(item.phone) ==> r == Some(PhoneLink(TelHref(item.phone.value), item.phone.value))
    ensures r.None? <==> !Truthy(item.phone) && !Truthy(item.address) && !Truthy(item.description)
    ensures r.Some? && r.value.Caption? ==> r.value.text != ""
  {
    var c := SubContent(item);
    if c.PhoneLink? || c.text != "" then Some(c) else None
  }

  /** The `sub` line is the one the first truthy field of `phone`, `address`, `description` selects. */
  lemma SubByPriority(item: LinkItem)
    ensures var cs := [item.phone, item.address, item.description];
            match FirstTruthy(cs)
            case None => SubOf(item) == None
            case Some(k) =>
              SubOf(item) == Some(if k == 0 then PhoneLink(TelHref(cs[0].value), cs[0].value)
                                  else Caption(cs[k].value))
  {
    var cs := [item.phone, item.address, item.description];
    if FirstTruthy(cs).None? {
      assert !Truthy(cs[0]) && !Truthy(cs[1]) && !Truthy(cs[2]);
    }
  }

  /** The card one configuration entry yields at position `idx`. */
  function CardOf(item: LinkItem, idx: nat): (c: Card)
    ensures Truthy(item.url) ==> c.href == item.url.value
    ensures !Truthy(item.url) ==> c.href == "#"
    ensures c.slot == SlotOf(item) && c.labelText == Label(item, idx) && c.sub == SubOf(item)
  {
    Card(OrElse(item.url, "#"), SlotOf(item), Label(item, idx), SubOf(item))
  }

  /** The cards of the whole list, one per entry, in input order. */
  function CardsFor(items: seq<LinkItem>): seq<Card>
  {
    seq(|items|, i requires 0 <= i < |items| => CardOf(items[i], i))
  }

  /** An entry with only a url and a title becomes the first card "1. Shop" with no sub line. */
  lemma ShopCardExample()
    ensures var item := LinkItem(Some("https://a.com"), None, None, None, Some("Shop"),
                                 None, None, None, None, None);
            CardOf(item, 0) == Card("https://a.com", Empty, "1. Shop", None)
  {
    assert NatToString(1) == "1";
    assert "1" + "." + " " + "Shop" == "1. Shop";
  }

  /** A phone number wins over an address and its whitespace is stripped from the link. */
  lemma PhoneCardExample()
    ensures var item := LinkItem(None, None, None, None, None, None, None,
                                 Some("+1 234 567"), Some("123 Main"), None);
            SubOf(item) == Some(PhoneLink("tel:+1234567", "+1 234 567"))
  {
    TelHrefExample();
    var item := LinkItem(None, None, None, None, None, None, None,
                         Some("+1 234 567"), Some("123 Main"), None);
    assert Truthy(item.phone);
  }

  /** The dial target of "+1 234 567" is "tel:+1234567". */
  lemma TelHrefExample()
    ensures TelHref("+1 234 567") == "tel:+1234567"
  {
    StripPhoneExample();
    assert "tel:" + "+1234567" == "tel:+1234567";
  }
}
