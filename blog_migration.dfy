/** The one-off migration of the bilingual blog posts into the database format: the
    conversion of one post, and the upload loop that records one result per post. */
module BlogMigration {
  import opened Common

  datatype Bilingual = Bilingual(zh: string, en: string)

  /** The fields of an old post that the conversion reads. */
  datatype OldBlogPost = OldBlogPost(
    id: string,
    title: Bilingual,
    content: Bilingual,
    author: string,
    readTime: nat,
    tags: seq<string>,
    featured: bool)

  /** A row of the database's blog table. */
  datatype NewBlogPost = NewBlogPost(
    title: string,
    titleEn: string,
    content: string,
    contentEn: string,
    author: string,
    remark: string,
    tags: string,
    tagsEn: string,
    rel1: Option<int>,
    rel2: Option<int>,
    rel3: Option<int>,
    recommand: bool,
    top: bool)

  // ---------------------------------------------------------------------------
  // Tags

  /** `/[一-龥]/.test(tag)`: the tag holds a CJK unified ideograph of the basic block. */
  predicate HasChinese(tag: string) {
    exists k :: 0 <= k < |tag| && '\U{4E00}' <= tag[k] <= '\U{9FA5}'
  }

  /** The `forEach` over the tags: each tag is pushed onto the Chinese list when it holds
      a Chinese character and onto the English list otherwise. */
  function SplitTags(tags: seq<string>): (r: (seq<string>, seq<string>))
    ensures |r.0| + |r.1| == |tags|
    decreases |tags|
  {
    if |tags| == 0 then ([], [])
    else
      var last := tags[|tags| - 1];
      var before := SplitTags(tags[..|tags| - 1]);
      if HasChinese(last) then (before.0 + [last], before.1)
      else (before.0, before.1 + [last])
  }

  /** Every tag lands in exactly one list: the Chinese list holds only tags with a
      Chinese character, the English list only tags without. */
  lemma {:induction false} SplitTagsPartitions(tags: seq<string>)
    ensures var r := SplitTags(tags);
      multiset(r.0) + multiset(r.1) == multiset(tags) &&
      (forall k :: 0 <= k < |r.0| ==> HasChinese(r.0[k])) &&
      (forall k :: 0 <= k < |r.1| ==> !HasChinese(r.1[k]))
    decreases |tags|
  {
    if |tags| > 0 {
      var init := tags[..|tags| - 1];
      SplitTagsPartitions(init);
      assert tags == init + [tags[|tags| - 1]];
    }
  }

  /** The split keeps the input order: the lists of a concatenation are the
      concatenations of the lists. */
  lemma {:induction false} SplitTagsAppend(a: seq<string>, b: seq<string>)
    ensures SplitTags(a + b) == (SplitTags(a).0 + SplitTags(b).0, SplitTags(a).1 + SplitTags(b).1)
    decreases |b|
  {
    if |b| == 0 {
      assert a + b == a;
      assert SplitTags(a).0 + [] == SplitTags(a).0 && SplitTags(a).1 + [] == SplitTags(a).1;
    } else {
      var ab := a + b;
      var init := b[..|b| - 1];
      assert ab[..|ab| - 1] == a + init;
      assert ab[|ab| - 1] == b[|b| - 1];
      SplitTagsAppend(a, init);
      var sa, si := SplitTags(a), SplitTags(init);
      if HasChinese(b[|b| - 1]) {
        assert sa.0 + si.0 + [b[|b| - 1]] == sa.0 + (si.0 + [b[|b| - 1]]);
      } else {
        assert sa.1 + si.1 + [b[|b| - 1]] == sa.1 + (si.1 + [b[|b| - 1]]);
      }
    }
  }

  /** A single tag goes to exactly one list. */
  lemma SplitOneTag(tag: string)
    ensures SplitTags([tag]) == if HasChinese(tag) then ([tag], []) else ([], [tag])
  {
    assert [tag][..0] == [];
    assert [tag][0] == tag;
    assert SplitTags([]) == ([], []);
    assert [] + [tag] == [tag];
  }

  /** Reading a comma-joined tag column back: the empty string is the empty list. */
  function TagList(column: string): seq<string> {
    if column == "" then [] else Split(column, ',')
  }

  /** Tags that are non-empty and hold no comma come back from their column unchanged. */
  lemma TagColumnRoundTrip(tags: seq<string>)
    requires forall k :: 0 <= k < |tags| ==> tags[k] != "" && ',' !in tags[k]
    ensures TagList(Join(tags, ",")) == tags
  {
    if |tags| > 0 {
      SplitJoin(tags, ',');
      if |tags| == 1 {
        assert Join(tags, ",") == tags[0];
      } else {
        assert Join(tags, ",") == tags[0] + "," + Join(tags[1..], ",");
      }
    }
  }

  // ---------------------------------------------------------------------------
  // The reading-time remark

  const MinutesRead := "分钟阅读"

  /** `${readTime}分钟阅读`. */
  function Remark(readTime: nat): string {
    NatToString(readTime) + MinutesRead
  }

  /** The reading time a remark states, if it has the remark's shape. */
  function ReadTimeOf(remark: string): Option<nat> {
    if |remark| > |MinutesRead| && remark[|remark| - |MinutesRead|..] == MinutesRead &&
       forall k :: 0 <= k < |remark| - |MinutesRead| ==> '0' <= remark[k] <= '9'
    then Some(ParseNat(remark[..|remark| - |MinutesRead|]))
    else None
  }

  lemma RemarkRoundTrip(readTime: nat)
    ensures ReadTimeOf(Remark(readTime)) == Some(readTime)
  {
    var digits := NatToString(readTime);
    var r := Remark(readTime);
    assert r[..|r| - |MinutesRead|] == digits;
    assert r[|r| - |MinutesRead|..] == MinutesRead;
    ParseNatToString(readTime);
  }

  // ---------------------------------------------------------------------------
  // convertBlogPost

  /** `convertBlogPost`: the Chinese title and content go to the main columns, the
      English ones to the `_en` columns; the Chinese and the English tags become two
      comma-joined columns; no related posts, never pinned, recommended iff featured. */
  function ConvertBlogPost(p: OldBlogPost): (n: NewBlogPost)
    ensures n.rel1.None? && n.rel2.None? && n.rel3.None? && !n.top
  {
    var tags := SplitTags(p.tags);
    NewBlogPost(
      p.title.zh, p.title.en, p.content.zh, p.content.en, p.author,
      Remark(p.readTime),
      Join(tags.0, ","), Join(tags.1, ","),
      None, None, None,
      p.featured, false)
  }

  /** For every old post, the row copies both titles and contents, the author and the
      featured flag, and its remark gives back the reading time. */
  lemma ConvertBlogPostCopies(p: OldBlogPost)
    ensures var n := ConvertBlogPost(p);
      n.title == p.title.zh && n.titleEn == p.title.en &&
      n.content == p.content.zh && n.contentEn == p.content.en &&
      n.author == p.author && n.recommand == p.featured &&
      ReadTimeOf(n.remark) == Some(p.readTime)
  {
    RemarkRoundTrip(p.readTime);
  }

  /** What the database row keeps of an old post: both titles and contents, the author,
      the reading time, the featured flag, and every tag exactly once, the Chinese ones
      in the main column and the others in the English one (for tags that are non-empty
      and hold no comma, which the joined columns could not tell apart otherwise). */
  lemma ConvertBlogPostKeeps(p: OldBlogPost)
    requires forall k :: 0 <= k < |p.tags| ==> p.tags[k] != "" && ',' !in p.tags[k]
    ensures var n := ConvertBlogPost(p);
      n.title == p.title.zh && n.titleEn == p.title.en &&
      n.content == p.content.zh && n.contentEn == p.content.en &&
      n.author == p.author && n.recommand == p.featured &&
      ReadTimeOf(n.remark) == Some(p.readTime) &&
      multiset(TagList(n.tags)) + multiset(TagList(n.tagsEn)) == multiset(p.tags) &&
      (forall k :: 0 <= k < |TagList(n.tags)| ==> HasChinese(TagList(n.tags)[k])) &&
      (forall k :: 0 <= k < |TagList(n.tagsEn)| ==> !HasChinese(TagList(n.tagsEn)[k]))
  {
    ConvertBlogPostCopies(p);
    SplitTagsPartitions(p.tags);
    var tags := SplitTags(p.tags);
    forall k | 0 <= k < |tags.0|
      ensures tags.0[k] != "" && ',' !in tags.0[k]
    {
      assert tags.0[k] in multiset(p.tags);
    }
    forall k | 0 <= k < |tags.1|
      ensures tags.1[k] != "" && ',' !in tags.1[k]
    {
      assert tags.1[k] in multiset(p.tags);
    }
    TagColumnRoundTrip(tags.0);
    TagColumnRoundTrip(tags.1);
  }

  // ---------------------------------------------------------------------------
  // migrateBlogs

  /** What one POST to the blogs endpoint came to: an ok response with the new row's id,
      a response that is not ok with its body text, or an exception with its text. */
  datatype PostAttempt = Accepted(newId: int) | Refused(body: string) | Threw(error: string)

  /** The endpoint as seen by the loop: the attempt for the `k`-th upload of a row. */
  type BlogEndpoint = (NewBlogPost, nat) -> PostAttempt

  datatype MigrationResult = MigrationResult(success: bool, id: string, newId: Option<int>, error: Option<string>)

  /** The result recorded for one post. */
  function ResultFor(p: OldBlogPost, attempt: PostAttempt): (r: MigrationResult)
    ensures r.id == p.id
    ensures r.success <==> attempt.Accepted?
    ensures r.success <==> r.newId.Some?
    ensures r.success <==> r.error.None?
  {
    match attempt
    case Accepted(newId) => MigrationResult(true, p.id, Some(newId), None)
    case Refused(body) => MigrationResult(false, p.id, None, Some(body))
    case Threw(error) => MigrationResult(false, p.id, None, Some(error))
  }

  /** The body of the loop for one post: success with the new id, or failure with the
      response text or the exception text. */
  method Record(p: OldBlogPost, attempt: PostAttempt) returns (result: MigrationResult)
    ensures result == ResultFor(p, attempt)
  {
    match attempt {
      case Accepted(newId) =>
        result := MigrationResult(true, p.id, Some(newId), None);
      case Refused(body) =>
        result := MigrationResult(false, p.id, None, Some(body));
      case Threw(error) =>
        result := MigrationResult(false, p.id, None, Some(error));
    }
  }

  /** `migrateBlogs`: every post is converted and uploaded in turn, and a failure is
      recorded without stopping the loop. */
  method MigrateBlogs(blogs: seq<OldBlogPost>, endpoint: BlogEndpoint) returns (results: seq<MigrationResult>)
    ensures |results| == |blogs|
    ensures forall k :: 0 <= k < |blogs| ==> results[k] == ResultFor(blogs[k], endpoint(ConvertBlogPost(blogs[k]), k))
    ensures forall k :: 0 <= k < |blogs| ==> results[k].id == blogs[k].id
    ensures forall k :: 0 <= k < |blogs| ==>
      (results[k].success <==> endpoint(ConvertBlogPost(blogs[k]), k).Accepted?)
  {
    results := [];
    for i := 0 to |blogs|
      invariant |results| == i
      invariant forall k :: 0 <= k < i ==> results[k] == ResultFor(blogs[k], endpoint(ConvertBlogPost(blogs[k]), k))
    {
      var newBlog := ConvertBlogPost(blogs[i]);
      var result := Record(blogs[i], endpoint(newBlog, i));
      results := results + [result];
    }
  }
}
