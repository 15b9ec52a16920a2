/**
 * The link-sharing metadata of the page: the document head seen as a
 * sequence of meta tags, each keyed either by a `property` attribute
 * (Open Graph) or by a `name` attribute (Twitter cards), and the upsert
 * that `setMeta` and `setTwitterMeta` perform on it.
 */
module MetaTags {
  import opened JsValues
  import opened Configuration

  /** Which attribute carries a tag's key. */
  datatype KeyKind = Property | Name

  /** A meta tag; `content` is `None` while the attribute has not been set. */
  datatype Tag = Tag(kind: KeyKind, key: string, content: Option<string>)
  {
    /** The tag matches the selector `meta[property="key"]` or `meta[name="key"]`. */
    predicate HasKey(k: KeyKind, name: string)
    {
      kind == k && key == name
    }
  }

  /** The position `querySelector` returns: the first tag carrying the key, if any. */
  function FirstIndex(tags: seq<Tag>, kind: KeyKind, key: string): (r: Option<nat>)
    ensures r.Some? ==> r.value < |tags| && tags[r.value].HasKey(kind, key)
    ensures r.Some? ==> forall j :: 0 <= j < r.value ==> !tags[j].HasKey(kind, key)
    ensures r.None? <==> forall j :: 0 <= j < |tags| ==> !tags[j].HasKey(kind, key)
  {
    if tags == [] then None
    else if tags[0].HasKey(kind, key) then Some(0)
    else match FirstIndex(tags[1..], kind, key)
      case None => None
      case Some(i) => Some(i + 1)
  }

  /** A position holding the key, with none before it, is the first index. */
  lemma FirstIndexAt(tags: seq<Tag>, kind: KeyKind, key: string, i: nat)
    requires i < |tags| && tags[i].HasKey(kind, key)
    requires forall j :: 0 <= j < i ==> !tags[j].HasKey(kind, key)
    ensures FirstIndex(tags, kind, key) == Some(i)
  {
  }

  /**
   * The head after upserting `value` under a key: the first tag with the key
   * gets the content, or a new tag is appended when none has it.
   */
  function Upserted(tags: seq<Tag>, kind: KeyKind, key: string, value: string): (r: seq<Tag>)
    ensures |r| == if FirstIndex(tags, kind, key).Some? then |tags| else |tags| + 1
    ensures FirstIndex(r, kind, key)
            == Some(if FirstIndex(tags, kind, key).Some? then FirstIndex(tags, kind, key).value else |tags|)
    ensures r[FirstIndex(r, kind, key).value].content == Some(value)
    ensures forall j :: 0 <= j < |tags| && FirstIndex(tags, kind, key) != Some(j) ==> r[j] == tags[j]
    ensures forall j :: 0 <= j < |tags| ==> r[j].kind == tags[j].kind && r[j].key == tags[j].key
  {
    match FirstIndex(tags, kind, key)
    case Some(i) =>
      var r := tags[i := tags[i].(content := Some(value))];
      FirstIndexAt(r, kind, key, i);
      r
    case None =>
      var r := tags + [Tag(kind, key, Some(value))];
      FirstIndexAt(r, kind, key, |tags|);
      r
  }

  /** One call of `setMeta(key, content)` or `setTwitterMeta(key, content)`. */
  datatype MetaEntry = MetaEntry(kind: KeyKind, key: string, content: Option<string>)
  {
    predicate SameKey(other: MetaEntry)
    {
      kind == other.kind && key == other.key
    }
  }

  /** The effect of one entry: nothing when the content is falsy, an upsert otherwise. */
  function Step(tags: seq<Tag>, e: MetaEntry): seq<Tag>
  {
    if Truthy(e.content) then Upserted(tags, e.kind, e.key, e.content.value) else tags
  }

  /** The effect of a sequence of entries applied in order. */
  function ApplyAll(tags: seq<Tag>, es: seq<MetaEntry>): seq<Tag>
    decreases |es|
  {
    if es == [] then tags
    else Step(ApplyAll(tags, es[..|es| - 1]), es[|es| - 1])
  }

  /** Applying one more entry of a sequence. */
  lemma ApplyAllSnoc(tags: seq<Tag>, es: seq<MetaEntry>, k: nat)
    requires k < |es|
    ensures ApplyAll(tags, es[..k + 1]) == Step(ApplyAll(tags, es[..k]), es[k])
  {
    assert es[..k + 1][..k] == es[..k];
  }

  /** The head already shows the entry: the first tag with its key has its content. */
  predicate Shows(tags: seq<Tag>, e: MetaEntry)
  {
    Truthy(e.content) ==>
      FirstIndex(tags, e.kind, e.key).Some?
      && tags[FirstIndex(tags, e.kind, e.key).value].content == e.content
  }

  predicate DistinctKeys(es: seq<MetaEntry>)
  {
    forall i, j :: 0 <= i < j < |es| ==> !es[i].SameKey(es[j])
  }

  /** The sharing entries in the order the page script sets them. */
  function ShareEntries(cfg: Config, pageUrl: string): (es: seq<MetaEntry>)
    ensures |es| == 9
    ensures forall i :: 0 <= i < 5 ==> es[i].kind == Property
    ensures forall i :: 5 <= i < 9 ==> es[i].kind == Name
  {
    [ MetaEntry(Property, "og:title", cfg.title),
      MetaEntry(Property, "og:description", cfg.subtitle),
      MetaEntry(Property, "og:image", cfg.logo),
      MetaEntry(Property, "og:type", Some("website")),
      MetaEntry(Property, "og:url", Some(pageUrl)),
      MetaEntry(Name, "twitter:card", Some("summary_large_image")),
      MetaEntry(Name, "twitter:title", cfg.title),
      MetaEntry(Name, "twitter:description", cfg.subtitle),
      MetaEntry(Name, "twitter:image", cfg.logo) ]
  }

  /** After an entry is applied, the head shows it. */
  lemma StepShows(tags: seq<Tag>, e: MetaEntry)
    ensures Shows(Step(tags, e), e)
  {
  }

  /** Applying an entry the head already shows changes nothing. */
  lemma StepFixpoint(tags: seq<Tag>, e: MetaEntry)
    requires Shows(tags, e)
    ensures Step(tags, e) == tags
  {
    if Truthy(e.content) {
      var i := FirstIndex(tags, e.kind, e.key).value;
      assert tags[i].(content := e.content) == tags[i];
    }
  }

  /** Repeating an upsert leaves the head as the first one left it. */
  lemma UpsertIdempotent(tags: seq<Tag>, kind: KeyKind, key: string, value: string)
    ensures Upserted(Upserted(tags, kind, key, value), kind, key, value) == Upserted(tags, kind, key, value)
  {
    var r := Upserted(tags, kind, key, value);
    var i := FirstIndex(r, kind, key).value;
    assert r[i].(content := Some(value)) == r[i];
  }

  /** An upsert under one key does not move the first tag of any other key. */
  lemma UpsertKeepsOtherKeys(tags: seq<Tag>, kind: KeyKind, key: string, value: string,
                             kind': KeyKind, key': string)
    requires kind != kind' || key != key'
    ensures FirstIndex(Upserted(tags, kind, key, value), kind', key') == FirstIndex(tags, kind', key')
  {
    var r := Upserted(tags, kind, key, value);
    assert forall j :: 0 <= j < |tags| ==> (r[j].HasKey(kind', key') <==> tags[j].HasKey(kind', key'));
    match FirstIndex(tags, kind', key')
    case Some(m) =>
      FirstIndexAt(r, kind', key', m);
    case None =>
      if |r| > |tags| {
        assert r[|tags|].HasKey(kind, key);
      }
      assert forall j :: 0 <= j < |r| ==> !r[j].HasKey(kind', key');
  }

  /** Applying one entry keeps the head showing every entry with another key. */
  lemma StepKeepsShown(tags: seq<Tag>, e: MetaEntry, e': MetaEntry)
    requires Shows(tags, e)
    requires !e.SameKey(e')
    ensures Shows(Step(tags, e'), e)
  {
    if Truthy(e'.content) && Truthy(e.content) {
      UpsertKeepsOtherKeys(tags, e'.kind, e'.key, e'.content.value, e.kind, e.key);
    }
  }

  /** After a sequence of entries with distinct keys, the head shows every one of them. */
  lemma {:induction false} ApplyAllShows(tags: seq<Tag>, es: seq<MetaEntry>)
    requires DistinctKeys(es)
    ensures forall i :: 0 <= i < |es| ==> Shows(ApplyAll(tags, es), es[i])
    decreases |es|
  {
    if es != [] {
      var init, last := es[..|es| - 1], es[|es| - 1];
      var mid := ApplyAll(tags, init);
      ApplyAllShows(tags, init);
      forall i | 0 <= i < |es|
        ensures Shows(ApplyAll(tags, es), es[i])
      {
        if i == |es| - 1 {
          StepShows(mid, last);
        } else {
          assert es[i] == init[i];
          StepKeepsShown(mid, es[i], last);
        }
      }
    }
  }

  /** A head that already shows every entry is left as it is. */
  lemma {:induction false} ApplyAllFixpoint(tags: seq<Tag>, es: seq<MetaEntry>)
    requires forall i :: 0 <= i < |es| ==> Shows(tags, es[i])
    ensures ApplyAll(tags, es) == tags
    decreases |es|
  {
    if es != [] {
      var init := es[..|es| - 1];
      assert forall i :: 0 <= i < |init| ==> init[i] == es[i];
      ApplyAllFixpoint(tags, init);
      StepFixpoint(tags, es[|es| - 1]);
    }
  }

  /** Applying entries with distinct keys a second time changes nothing. */
  lemma ApplyAllIdempotent(tags: seq<Tag>, es: seq<MetaEntry>)
    requires DistinctKeys(es)
    ensures ApplyAll(ApplyAll(tags, es), es) == ApplyAll(tags, es)
  {
    ApplyAllShows(tags, es);
    ApplyAllFixpoint(ApplyAll(tags, es), es);
  }

  /** The nine sharing keys are pairwise different. */
  lemma ShareEntriesDistinct(cfg: Config, pageUrl: string)
    ensures DistinctKeys(ShareEntries(cfg, pageUrl))
  {
  }

  /** The document head, whose meta tags the page script upserts in place. */
  class Head {
    var tags: seq<Tag>

    /** `document.querySelector('meta[…="key"]')`: scans the head in document order. */
    method Find(kind: KeyKind, key: string) returns (r: Option<nat>)
      ensures r == FirstIndex(tags, kind, key)
    {
      var j := 0;
      while j < |tags|
        invariant 0 <= j <= |tags|
        invariant forall m :: 0 <= m < j ==> !tags[m].HasKey(kind, key)
      {
        if tags[j].HasKey(kind, key) {
          return Some(j);
        }
        j := j + 1;
      }
      return None;
    }

    /**
     * The body shared by `setMeta` and `setTwitterMeta`: skip a falsy content,
     * otherwise find the tag, create and append it when missing, and set its
     * content attribute.
     */
    method Upsert(kind: KeyKind, key: string, content: Option<string>)
      modifies this
      ensures !Truthy(content) ==> tags == old(tags)
      ensures Truthy(content) ==> tags == Upserted(old(tags), kind, key, content.value)
    {
      if !Truthy(content) {
        return;
      }
      var found := Find(kind, key);
      var i: nat;
      if found.None? {
        tags := tags + [Tag(kind, key, None)];
        i := |tags| - 1;
      } else {
        i := found.value;
      }
      tags := tags[i := tags[i].(content := content)];
    }

    /** `setMeta(property, content)`: an Open Graph tag keyed by `property`. */
    method SetMeta(property: string, content: Option<string>)
      modifies this
      ensures tags == Step(old(tags), MetaEntry(Property, property, content))
    {
      Upsert(Property, property, content);
    }

    /** `setTwitterMeta(name, content)`: a Twitter card tag keyed by `name`. */
    method SetTwitterMeta(name: string, content: Option<string>)
      modifies this
      ensures tags == Step(old(tags), MetaEntry(Name, name, content))
    {
      Upsert(Name, name, content);
    }
  }
}
