/** The navigation bar's test for whether a menu link is the current page. Pages live
    under an optional `en` or `zh` locale segment, which the test ignores. */
module Navbar {
  import opened Common

  predicate IsLocale(segment: string) {
    segment == "en" || segment == "zh"
  }

  predicate NonEmpty(segment: string) {
    segment != ""
  }

  /** `pathname.split('/').filter(Boolean)`: the non-empty segments, in order. */
  function Segments(pathname: string): (segments: seq<string>)
    ensures forall k :: 0 <= k < |segments| ==> segments[k] != "" && '/' !in segments[k]
  {
    SplitPartsAvoidSep(pathname, '/');
    var segments := Filter(Split(pathname, '/'), NonEmpty);
    assert forall k :: 0 <= k < |segments| ==> segments[k] in Split(pathname, '/');
    segments
  }

  /** The segments of the page itself: a leading locale segment is dropped. (When there
      is no segment at all, `pathSegments[0]` is undefined and differs from the default
      locale, so nothing is dropped.) */
  function PageSegments(pathname: string): (page: seq<string>)
    ensures page == Segments(pathname) || (|Segments(pathname)| > 0 && IsLocale(Segments(pathname)[0]) && page == Segments(pathname)[1..])
    ensures forall k :: 0 <= k < |page| ==> page[k] != "" && '/' !in page[k]
  {
    var segments := Segments(pathname);
    if |segments| > 0 && IsLocale(segments[0]) then segments[1..] else segments
  }

  /** `pathWithoutLocale`: the page's segments joined under a leading slash. */
  function PathWithoutLocale(pathname: string): (path: string)
    ensures |path| >= 1 && path[0] == '/'
  {
    "/" + Join(PageSegments(pathname), "/")
  }

  /** Joining non-empty parts gives the empty string only for no parts. */
  lemma JoinOfNonEmptyParts(parts: seq<string>, sep: string)
    requires forall k :: 0 <= k < |parts| ==> parts[k] != ""
    ensures Join(parts, sep) == "" <==> parts == []
  {
    if |parts| > 1 {
      assert |Join(parts, sep)| >= |parts[0]|;
    }
  }

  /** `isActive`: the home link is active exactly on the home page, in either locale (the
      test against the empty string can never succeed, as the path always starts with a
      slash); any other link is active when it is a prefix of the path. */
  function IsActive(pathname: string, link: string): (active: bool)
    ensures link == "/" ==> (active <==> PageSegments(pathname) == [])
    ensures link != "/" ==> (active <==> link <= PathWithoutLocale(pathname))
  {
    JoinOfNonEmptyParts(PageSegments(pathname), "/");
    var path := PathWithoutLocale(pathname);
    if link == "/" then path == "/" || path == "" else link <= path
  }

  /** Segments that make up a path written without a locale: non-empty, slash-free, and
      not starting with a locale name. */
  predicate Canonical(segments: seq<string>) {
    (forall k :: 0 <= k < |segments| ==> segments[k] != "" && '/' !in segments[k]) &&
    (|segments| > 0 ==> !IsLocale(segments[0]))
  }

  /** The segments of `/a/b/c` built from slash-free non-empty segments, with any number
      of leading empty ones before them. */
  lemma SegmentsOfJoin(prefix: seq<string>, segments: seq<string>)
    requires forall k :: 0 <= k < |segments| ==> segments[k] != "" && '/' !in segments[k]
    requires |prefix| > 0 && forall k :: 0 <= k < |prefix| ==> prefix[k] == ""
    ensures Segments(Join(prefix + segments, "/")) == segments
  {
    var parts := prefix + segments;
    SplitJoin(parts, '/');
    FilterAppend(prefix, segments, NonEmpty);
    FilterKeepsAll(segments, NonEmpty);
    FilterDropsEmpty(prefix);
  }

  lemma {:induction false} FilterDropsEmpty(prefix: seq<string>)
    requires forall k :: 0 <= k < |prefix| ==> prefix[k] == ""
    ensures Filter(prefix, NonEmpty) == []
    decreases |prefix|
  {
    if |prefix| > 0 {
      FilterDropsEmpty(prefix[1..]);
    }
  }

  /** A path written without a locale is its own `pathWithoutLocale`. */
  lemma CanonicalPathIsFixed(segments: seq<string>)
    requires Canonical(segments)
    ensures PathWithoutLocale("/" + Join(segments, "/")) == "/" + Join(segments, "/")
  {
    var path := "/" + Join(segments, "/");
    if |segments| == 0 {
      assert path == Join(["", ""], "/");
      SegmentsOfJoin(["", ""], []);
      assert ["", ""] + [] == ["", ""];
    } else {
      assert path == Join([""] + segments, "/") by {
        assert ([""] + segments)[1..] == segments;
      }
      SegmentsOfJoin([""], segments);
    }
  }

  /** A locale segment in front of a page changes neither its `pathWithoutLocale` nor, so,
      which links are active: `/en/x` and `/zh/x` light up the same links as `/x`. */
  lemma LocalePrefixIgnored(locale: string, segments: seq<string>, link: string)
    requires IsLocale(locale) && Canonical(segments)
    ensures PathWithoutLocale("/" + Join([locale] + segments, "/")) == "/" + Join(segments, "/")
    ensures IsActive("/" + Join([locale] + segments, "/"), link) == IsActive("/" + Join(segments, "/"), link)
  {
    var withLocale := [locale] + segments;
    assert "/" + Join(withLocale, "/") == Join([""] + withLocale, "/") by {
      assert ([""] + withLocale)[1..] == withLocale;
    }
    SegmentsOfJoin([""], withLocale);
    assert withLocale[1..] == segments;
    CanonicalPathIsFixed(segments);
  }

  /** The prefix test does not respect segment boundaries: a one-segment link `/a` is
      active on the page `/ab` for any slash-free `b`, with or without a locale in
      front, although `ab` is a different segment when `b` is not empty (`/education-x`
      and `/zh/education-x` mark the `/education` link active). */
  lemma PrefixMatchIgnoresSegments(a: string, b: string, locale: string)
    requires a != "" && '/' !in a && '/' !in b && !IsLocale(a + b) && IsLocale(locale)
    ensures IsActive("/" + (a + b), "/" + a)
    ensures IsActive("/" + locale + "/" + (a + b), "/" + a)
  {
    var segments := [a + b];
    assert Join(segments, "/") == a + b;
    assert Canonical(segments);
    CanonicalPathIsFixed(segments);
    assert "/" + a <= "/" + (a + b);
    LocalePrefixIgnored(locale, segments, "/" + a);
    assert Join([locale] + segments, "/") == locale + "/" + (a + b) by {
      assert ([locale] + segments)[1..] == segments;
    }
    assert "/" + Join([locale] + segments, "/") == "/" + locale + "/" + (a + b);
  }
}
