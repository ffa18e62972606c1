/**
 * The audio-link filter, `LinkParser.handle_starttag`, fed with start-tag
 * events that the HTML tokenizer has already produced.
 *
 * Attribute values are optional: the tokenizer reports a valueless
 * attribute (`<a href>`) with no value, and calling `endswith` on that
 * missing value raises. The pure functions below return the links found
 * before such an attribute together with a `raised` flag.
 */
module LinkParsing {
  import opened Text

  datatype Option<T> = None | Some(value: T)

  /** One `(name, value)` pair of a start tag. */
  datatype Attr = Attr(name: string, value: Option<string>)

  /** One start-tag event: the tag name and its attributes in document order. */
  datatype StartTag = StartTag(tag: string, attrs: seq<Attr>)

  /** Reference resolution of a (possibly relative) reference against a base URL (`urljoin`). */
  type UrlJoin = (string, string) -> string

  /** Links collected so far, and whether an exception stopped the collection. */
  datatype Scan = Scan(links: seq<string>, raised: bool)

  /** The exact, case-sensitive suffix test on an `href` value. */
  predicate IsAudioPath(v: string)
  {
    EndsWith(v, ".mp3") || EndsWith(v, ".wav") || EndsWith(v, ".m4a")
  }

  /** An `href` attribute whose value names an audio file. */
  predicate IsAudioHref(a: Attr)
  {
    a.name == "href" && a.value.Some? && IsAudioPath(a.value.value)
  }

  /** An `href` attribute without a value: the suffix test raises on it. */
  predicate RaisesOn(a: Attr)
  {
    a.name == "href" && a.value.None?
  }

  /** Runs `second` after `first`, unless `first` was stopped by an exception. */
  function Then(first: Scan, second: Scan): Scan
  {
    if first.raised then first else Scan(first.links + second.links, second.raised)
  }

  /**
   * The links one anchor's attributes contribute: `join(base, value)` for
   * each audio `href`, in attribute order, up to the first valueless `href`.
   */
  function HrefLinks(base: string, join: UrlJoin, attrs: seq<Attr>): (r: Scan)
    ensures |r.links| <= |attrs|
  {
    if attrs == [] then
      Scan([], false)
    else if RaisesOn(attrs[0]) then
      Scan([], true)
    else
      var rest := HrefLinks(base, join, attrs[1..]);
      if IsAudioHref(attrs[0]) then Scan([join(base, attrs[0].value.value)] + rest.links, rest.raised)
      else rest
  }

  /** What `handle_starttag` contributes for one event: nothing unless the tag is `a`. */
  function TagLinks(base: string, join: UrlJoin, e: StartTag): Scan
  {
    if e.tag == "a" then HrefLinks(base, join, e.attrs) else Scan([], false)
  }

  /** The links a whole page of start-tag events yields, in document order. */
  function PageLinks(base: string, join: UrlJoin, events: seq<StartTag>): Scan
  {
    if events == [] then Scan([], false)
    else Then(TagLinks(base, join, events[0]), PageLinks(base, join, events[1..]))
  }

  /**
   * An anchor raises exactly when it has a valueless `href`; every link it
   * yields is the resolution of one of its audio `href`s; and, when it does
   * not raise, every audio `href` yields a link.
   */
  lemma {:induction false} HrefLinksSpec(base: string, join: UrlJoin, attrs: seq<Attr>)
    ensures HrefLinks(base, join, attrs).raised <==> exists i :: 0 <= i < |attrs| && RaisesOn(attrs[i])
    ensures forall x :: x in HrefLinks(base, join, attrs).links ==>
              exists i :: 0 <= i < |attrs| && IsAudioHref(attrs[i]) && x == join(base, attrs[i].value.value)
    ensures !HrefLinks(base, join, attrs).raised ==>
              forall i :: 0 <= i < |attrs| && IsAudioHref(attrs[i]) ==>
                join(base, attrs[i].value.value) in HrefLinks(base, join, attrs).links
  {
    if attrs != [] && !RaisesOn(attrs[0]) {
      HrefLinksSpec(base, join, attrs[1..]);
      assert forall i :: 1 <= i < |attrs| ==> attrs[i] == attrs[1..][i - 1];
      assert forall i :: 0 <= i < |attrs[1..]| ==> attrs[1..][i] == attrs[i + 1];
    }
  }

  /** A page raises exactly when one of its anchors has a valueless `href`. */
  lemma {:induction false} PageLinksRaised(base: string, join: UrlJoin, events: seq<StartTag>)
    ensures PageLinks(base, join, events).raised <==>
              exists k, i :: 0 <= k < |events| && events[k].tag == "a" &&
                             0 <= i < |events[k].attrs| && RaisesOn(events[k].attrs[i])
  {
    if events != [] {
      PageLinksRaised(base, join, events[1..]);
      HrefLinksSpec(base, join, events[0].attrs);
      assert forall k :: 1 <= k < |events| ==> events[k] == events[1..][k - 1];
      assert forall k :: 0 <= k < |events[1..]| ==> events[1..][k] == events[k + 1];
    }
  }

  /**
   * Every link a page yields is the resolution, against the page URL, of an
   * audio `href` of one of its anchors.
   */
  lemma {:induction false} PageLinksSound(base: string, join: UrlJoin, events: seq<StartTag>)
    ensures forall x :: x in PageLinks(base, join, events).links ==>
              exists k, i :: 0 <= k < |events| && events[k].tag == "a" && 0 <= i < |events[k].attrs| &&
                             IsAudioHref(events[k].attrs[i]) && x == join(base, events[k].attrs[i].value.value)
  {
    if events != [] {
      PageLinksSound(base, join, events[1..]);
      HrefLinksSpec(base, join, events[0].attrs);
      assert forall k :: 0 <= k < |events[1..]| ==> events[1..][k] == events[k + 1];
    }
  }

  /**
   * A page that does not raise yields the resolution of every audio `href`
   * of every one of its anchors.
   */
  lemma {:induction false} PageLinksComplete(base: string, join: UrlJoin, events: seq<StartTag>)
    ensures !PageLinks(base, join, events).raised ==>
              forall k, i :: 0 <= k < |events| && events[k].tag == "a" && 0 <= i < |events[k].attrs| &&
                             IsAudioHref(events[k].attrs[i]) ==>
                join(base, events[k].attrs[i].value.value) in PageLinks(base, join, events).links
  {
    if events != [] {
      PageLinksComplete(base, join, events[1..]);
      HrefLinksSpec(base, join, events[0].attrs);
      assert forall k :: 1 <= k < |events| ==> events[k] == events[1..][k - 1];
    }
  }

  /** Feeding `e1 + e2` is feeding `e1`, then `e2` unless `e1` raised: links come out in document order. */
  lemma {:induction false} PageLinksAppend(base: string, join: UrlJoin, e1: seq<StartTag>, e2: seq<StartTag>)
    ensures PageLinks(base, join, e1 + e2) == Then(PageLinks(base, join, e1), PageLinks(base, join, e2))
  {
    if e1 == [] {
      assert e1 + e2 == e2;
    } else {
      assert (e1 + e2)[0] == e1[0];
      assert (e1 + e2)[1..] == e1[1..] + e2;
      PageLinksAppend(base, join, e1[1..], e2);
      var t := TagLinks(base, join, e1[0]);
      var p1 := PageLinks(base, join, e1[1..]);
      var p2 := PageLinks(base, join, e2);
      if !t.raised && !p1.raised {
        assert t.links + (p1.links + p2.links) == (t.links + p1.links) + p2.links;
      }
    }
  }

  /** A page from event `k` on: that event's links, then the rest of the page's unless it raised. */
  lemma PageLinksStep(base: string, join: UrlJoin, events: seq<StartTag>, k: int)
    requires 0 <= k < |events|
    ensures PageLinks(base, join, events[k..]) ==
            Then(TagLinks(base, join, events[k]), PageLinks(base, join, events[k + 1..]))
  {
    assert events[k..][0] == events[k] && events[k..][1..] == events[k + 1..];
  }

  /**
   * One turn of the attribute loop past an attribute that does not raise:
   * with `after` the list once attribute `i` is handled, the links still
   * owed by the rest of the tag shrink accordingly.
   */
  lemma HrefStep(base: string, join: UrlJoin, attrs: seq<Attr>, i: int, before: seq<string>, after: seq<string>)
    requires 0 <= i < |attrs| && !RaisesOn(attrs[i])
    requires after == if IsAudioHref(attrs[i]) then before + [join(base, attrs[i].value.value)] else before
    ensures HrefLinks(base, join, attrs[i..]).raised == HrefLinks(base, join, attrs[i + 1..]).raised
    ensures before + HrefLinks(base, join, attrs[i..]).links == after + HrefLinks(base, join, attrs[i + 1..]).links
  {
    HrefLinksStep(base, join, attrs, i);
    if IsAudioHref(attrs[i]) {
      var rest := HrefLinks(base, join, attrs[i + 1..]).links;
      assert before + ([join(base, attrs[i].value.value)] + rest) == after + rest;
    }
  }

  /**
   * One turn of the feeding loop: with `after` the list once event `k` is
   * handled, the links still owed by the rest of the page shrink accordingly.
   */
  lemma FeedStep(base: string, join: UrlJoin, events: seq<StartTag>, k: int,
                 before: seq<string>, after: seq<string>, raised: bool)
    requires 0 <= k < |events|
    requires after == before + TagLinks(base, join, events[k]).links
    requires raised == TagLinks(base, join, events[k]).raised
    ensures PageLinks(base, join, events[k..]).raised == (raised || PageLinks(base, join, events[k + 1..]).raised)
    ensures raised ==> before + PageLinks(base, join, events[k..]).links == after
    ensures !raised ==>
              before + PageLinks(base, join, events[k..]).links == after + PageLinks(base, join, events[k + 1..]).links
  {
    PageLinksStep(base, join, events, k);
    var here := TagLinks(base, join, events[k]);
    if !raised {
      assert before + (here.links + PageLinks(base, join, events[k + 1..]).links) ==
             after + PageLinks(base, join, events[k + 1..]).links;
    }
  }

  /** An anchor from attribute `i` on: that attribute's link, if any, then the rest unless it raised. */
  lemma HrefLinksStep(base: string, join: UrlJoin, attrs: seq<Attr>, i: int)
    requires 0 <= i < |attrs|
    ensures HrefLinks(base, join, attrs[i..]) ==
            if RaisesOn(attrs[i]) then Scan([], true)
            else if IsAudioHref(attrs[i]) then
              Scan([join(base, attrs[i].value.value)] + HrefLinks(base, join, attrs[i + 1..]).links,
                   HrefLinks(base, join, attrs[i + 1..]).raised)
            else HrefLinks(base, join, attrs[i + 1..])
  {
    assert attrs[i..][0] == attrs[i] && attrs[i..][1..] == attrs[i + 1..];
  }

  /** Collecting over `a + b` is collecting over `a`, then over `b` unless `a` raised. */
  lemma {:induction false} HrefLinksAppend(base: string, join: UrlJoin, a: seq<Attr>, b: seq<Attr>)
    ensures HrefLinks(base, join, a + b) == Then(HrefLinks(base, join, a), HrefLinks(base, join, b))
  {
    if a == [] {
      assert a + b == b;
    } else {
      assert (a + b)[0] == a[0];
      assert (a + b)[1..] == a[1..] + b;
      HrefLinksAppend(base, join, a[1..], b);
    }
  }

  /**
   * The parser object: the page URL it resolves against and the list of
   * links it has collected so far.
   */
  class LinkParser {
    const baseUrl: string
    const join: UrlJoin
    var links: seq<string>

    constructor (baseUrl: string, join: UrlJoin)
      ensures this.baseUrl == baseUrl && this.join == join
      ensures links == []
    {
      this.baseUrl := baseUrl;
      this.join := join;
      links := [];
    }

    /**
     * Handles one start tag: for an `a` tag, appends the resolved value of
     * every audio `href`, in attribute order; any other tag leaves `links`
     * alone. Returns whether a valueless `href` raised part way.
     */
    method HandleStartTag(tag: string, attrs: seq<Attr>) returns (raised: bool)
      modifies this
      ensures tag != "a" ==> links == old(links) && !raised
      ensures tag == "a" ==> links == old(links) + HrefLinks(baseUrl, join, attrs).links
      ensures tag == "a" ==> raised == HrefLinks(baseUrl, join, attrs).raised
    {
      raised := false;
      if tag == "a" {
        var i := 0;
        while i < |attrs|
          invariant 0 <= i <= |attrs|
          invariant old(links) + HrefLinks(baseUrl, join, attrs).links ==
                    links + HrefLinks(baseUrl, join, attrs[i..]).links
          invariant HrefLinks(baseUrl, join, attrs).raised == HrefLinks(baseUrl, join, attrs[i..]).raised
        {
          ghost var before := links;
          var a := attrs[i];
          if a.name == "href" {
            if a.value.None? {
              HrefLinksStep(baseUrl, join, attrs, i);
              raised := true;
              return;
            }
            var v := a.value.value;
            if EndsWith(v, ".mp3") || EndsWith(v, ".wav") || EndsWith(v, ".m4a") {
              links := links + [join(baseUrl, v)];
            }
          }
          HrefStep(baseUrl, join, attrs, i, before, links);
          i := i + 1;
        }
      }
    }

    /** Feeds a page's start-tag events in order; stops at the first exception. */
    method Feed(events: seq<StartTag>) returns (raised: bool)
      modifies this
      ensures links == old(links) + PageLinks(baseUrl, join, events).links
      ensures raised == PageLinks(baseUrl, join, events).raised
    {
      raised := false;
      var k := 0;
      while k < |events|
        invariant 0 <= k <= |events|
        invariant old(links) + PageLinks(baseUrl, join, events).links ==
                  links + PageLinks(baseUrl, join, events[k..]).links
        invariant PageLinks(baseUrl, join, events).raised == PageLinks(baseUrl, join, events[k..]).raised
      {
        ghost var before := links;
        raised := HandleStartTag(events[k].tag, events[k].attrs);
        FeedStep(baseUrl, join, events, k, before, links, raised);
        if raised {
          return;
        }
        k := k + 1;
      }
    }
  }

  /** The same audio `href` twice on one anchor yields its link twice: nothing is de-duplicated. */
  lemma KeepsDuplicates(base: string, join: UrlJoin, a: Attr)
    requires IsAudioHref(a)
    ensures HrefLinks(base, join, [a, a]) == Scan([join(base, a.value.value), join(base, a.value.value)], false)
  {
    assert [a, a][1..] == [a] && [a][1..] == [];
    assert HrefLinks(base, join, [a]) == Scan([join(base, a.value.value)], false);
  }

  /** Two anchors on one page come back resolved, in document order. */
  lemma DocumentOrder(page: string, join: UrlJoin)
    ensures PageLinks(page, join, [StartTag("a", [Attr("href", Some("track1.mp3"))]),
                                   StartTag("a", [Attr("href", Some("http://other.com/b.wav"))])]).links
            == [join(page, "track1.mp3"), join(page, "http://other.com/b.wav")]
  {
    var first := StartTag("a", [Attr("href", Some("track1.mp3"))]);
    var second := StartTag("a", [Attr("href", Some("http://other.com/b.wav"))]);
    assert "track1.mp3"[6..] == ".mp3";
    assert "http://other.com/b.wav"[18..] == ".wav";
    assert IsAudioHref(first.attrs[0]) && IsAudioHref(second.attrs[0]);
    assert first.attrs[1..] == [] && second.attrs[1..] == [];
    assert HrefLinks(page, join, first.attrs[1..]) == Scan([], false);
    assert HrefLinks(page, join, first.attrs) == Scan([join(page, "track1.mp3")], false);
    assert TagLinks(page, join, first) == Scan([join(page, "track1.mp3")], false);
    assert TagLinks(page, join, second) == Scan([join(page, "http://other.com/b.wav")], false);
    assert [first, second][1..] == [second] && [second][1..] == [];
    assert PageLinks(page, join, [second]) == Scan([join(page, "http://other.com/b.wav")], false);
  }
}
