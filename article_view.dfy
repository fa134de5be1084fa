/**
 * The article page: finding the article by id, the trending sidebar, the
 * meta tags, and the rendering of the long content into paragraphs and
 * headed sections.
 */
module ArticleView {
  import opened Wrappers
  import opened Sequences
  import opened Text
  import opened Entities
  import opened DataContext

  /** The first item with the id, if any. */
  function FindById(xs: seq<Interview>, id: string): (r: Option<Interview>)
    ensures r.None? <==> !HasId(xs, id)
    ensures r.Some? ==> r.value.id == id
    ensures r.Some? ==> exists k :: 0 <= k < |xs| && xs[k] == r.value && !HasId(xs[..k], id)
  {
    if xs == [] then None
    else if xs[0].id == id then
      assert xs[0] == xs[0] && !HasId(xs[..0], id);
      Some(xs[0])
    else
      var r := FindById(xs[1..], id);
      if r.Some? then
        var k :| 0 <= k < |xs[1..]| && xs[1..][k] == r.value && !HasId(xs[1..][..k], id);
        assert xs[..k + 1] == [xs[0]] + xs[1..][..k];
        assert xs[k + 1] == r.value && !HasId(xs[..k + 1], id);
        r
      else
        assert !HasId(xs, id) by {
          forall k | 0 <= k < |xs| ensures xs[k].id != id {
            if k > 0 {
              assert xs[k] == xs[1..][k - 1];
            }
          }
        }
        r
  }

  /** The sidebar: the first five other items, in store order. */
  function Trending(xs: seq<Interview>, id: string): (r: seq<Interview>)
    ensures |r| <= 5
    ensures !HasId(r, id)
    ensures forall x :: x in r ==> x in xs
    ensures r <= WithoutId(xs, id)
    ensures |r| == if |WithoutId(xs, id)| < 5 then |WithoutId(xs, id)| else 5
  {
    var others := WithoutId(xs, id);
    WithoutIdSpec(xs, id);
    SubsequenceMembers(others, xs);
    var r := Take(others, 5);
    assert forall k :: 0 <= k < |r| ==> r[k] == others[k];
    r
  }

  /** A block of the article body: a plain paragraph, or a heading with the text that follows it. */
  datatype Block = Paragraph(text: string) | Section(head: string, body: string)

  /** The text a block shows, with the heading's colon put back. */
  function BlockText(b: Block): string
  {
    match b
    case Paragraph(t) => t
    case Section(h, t) => h + ":" + t
  }

  /**
   * The block as the page builds it: a paragraph with a colon becomes a
   * section whose heading is the text before the first colon and whose
   * text is the second colon-separated piece only.
   */
  function RenderBlockAsWritten(para: string): (b: Block)
    ensures b.Paragraph? <==> !Contains(para, ":")
    ensures b.Paragraph? ==> b.text == para
    ensures b.Section? ==> !Contains(b.head, ":") && !Contains(b.body, ":")
    ensures b.Section? ==> BlockText(b) <= para
    ensures b.Section? ==> |BlockText(b)| == |para| || para[|BlockText(b)|] == ':'
    ensures AtMostOneColon(para) ==> BlockText(b) == para
  {
    match IndexOf(para, ":")
    case None => Paragraph(para)
    case Some(i) =>
      SectionPieces(para, i);
      Section(Split(para, ":")[0], Split(para, ":")[1])
  }

  /** The two pieces the page keeps, around the first colon at `i`. */
  lemma SectionPieces(para: string, i: nat)
    requires IndexOf(para, ":") == Some(i)
    ensures |Split(para, ":")| >= 2
    ensures !Contains(Split(para, ":")[0], ":") && !Contains(Split(para, ":")[1], ":")
    ensures Split(para, ":")[0] + ":" + Split(para, ":")[1] <= para
    ensures var n := |Split(para, ":")[0] + ":" + Split(para, ":")[1]|;
      n == |para| || para[n] == ':'
    ensures AtMostOneColon(para) ==> Split(para, ":")[0] + ":" + Split(para, ":")[1] == para
  {
    var h, rest := para[..i], para[i + 1..];
    SplitStep(para, ":", i);
    var t := Split(rest, ":")[0];
    assert Split(para, ":")[0] == h && Split(para, ":")[1] == t;
    assert !Contains(h, ":") && !Contains(t, ":") by {
      SplitPiecesFree(para, ":");
      assert h in Split(para, ":") && t in Split(para, ":");
    }
    SplitFirstPiece(rest, ":");
    PieceInPlace(h, rest, t);
    assert AtMostOneColon(para) ==> t == rest by {
      if AtMostOneColon(para) {
        assert |Split(rest, ":")| == 1;
      }
    }
  }

  /** A prefix `t` of `rest` that ends at a colon or at the end keeps that property after `h:`. */
  lemma PieceInPlace(h: string, rest: string, t: string)
    requires t <= rest
    requires |t| == |rest| || OccursAt(rest, ":", |t|)
    ensures h + ":" + t <= h + ":" + rest
    ensures |h + ":" + t| == |h + ":" + rest| || (h + ":" + rest)[|h + ":" + t|] == ':'
  {
    PrefixAfter(h + ":", t, rest);
    if |t| < |rest| {
      assert rest[|t|..|t| + 1] == ":";
      assert (h + ":" + rest)[|h + ":" + t|] == rest[|t|];
    }
  }

  /** The paragraph holds at most one colon: `split(':')` gives at most two pieces. */
  predicate AtMostOneColon(para: string)
  {
    |Split(para, ":")| <= 2
  }

  /** "Time: 9:30" splits at its two colons into three pieces. */
  lemma SplitTimeExample()
    ensures Split("Time: 9:30", ":") == ["Time", " 9", "30"]
  {
    var parts := ["Time", " 9", "30"];
    assert Join(parts, ":") == "Time: 9:30" by {
      assert parts[1..] == [" 9", "30"] && parts[1..][1..] == ["30"];
    }
    SplitJoin(parts, ":");
  }

  /** `p + a` is a prefix of `p + b` when `a` is a prefix of `b`. */
  lemma PrefixAfter(p: string, a: string, b: string)
    requires a <= b
    ensures p + a <= p + b
  {
    assert (p + b)[..|p + a|] == p + a;
  }

  /** On "Time: 9:30" the page shows the heading "Time" over " 9" and drops the rest. */
  lemma RenderBlockAsWrittenDropsText()
    ensures RenderBlockAsWritten("Time: 9:30") == Section("Time", " 9")
    ensures BlockText(RenderBlockAsWritten("Time: 9:30")) != "Time: 9:30"
  {
    SplitTimeExample();
  }

  /**
   * The block the page evidently means to build: heading before the first
   * colon, everything after it as the text, so no text is lost.
   */
  function RenderBlock(para: string): (b: Block)
    ensures b.Paragraph? <==> !Contains(para, ":")
    ensures b.Section? ==> !Contains(b.head, ":")
    ensures BlockText(b) == para
  {
    match IndexOf(para, ":")
    case None => Paragraph(para)
    case Some(i) =>
      OccursInPrefix(para, ":", i);
      assert para == para[..i] + ":" + para[i + 1..] by {
        assert para[i..i + 1] == ":";
      }
      Section(para[..i], para[i + 1..])
  }

  /** Paragraphs are separated by a blank line. */
  const ParagraphBreak := "\n\n"

  function Texts(bs: seq<Block>): (r: seq<string>)
    ensures |r| == |bs| && forall k :: 0 <= k < |bs| ==> r[k] == BlockText(bs[k])
  {
    seq(|bs|, k requires 0 <= k < |bs| => BlockText(bs[k]))
  }

  /**
   * The long content as the page renders it: cut at blank lines, each
   * piece rendered by the block as written. Each block shows a prefix of
   * its segment, and the whole segment when it holds at most one colon.
   */
  function RenderContent(content: string): (r: seq<Block>)
    ensures |r| == |Split(content, ParagraphBreak)|
    ensures forall k :: 0 <= k < |r| ==> BlockText(r[k]) <= Split(content, ParagraphBreak)[k]
    ensures forall k :: 0 <= k < |r| ==>
      (r[k].Paragraph? <==> !Contains(Split(content, ParagraphBreak)[k], ":"))
    ensures forall k :: 0 <= k < |r| && AtMostOneColon(Split(content, ParagraphBreak)[k]) ==>
      BlockText(r[k]) == Split(content, ParagraphBreak)[k]
    ensures forall k :: 0 <= k < |r| ==> r[k] == RenderBlockAsWritten(Split(content, ParagraphBreak)[k])
  {
    var ps := Split(content, ParagraphBreak);
    seq(|ps|, k requires 0 <= k < |ps| => RenderBlockAsWritten(ps[k]))
  }

  /** Where no paragraph holds two colons, the page's rendering loses nothing. */
  lemma ContentRoundTripAsWritten(content: string)
    requires forall p :: p in Split(content, ParagraphBreak) ==> AtMostOneColon(p)
    ensures Join(Texts(RenderContent(content)), ParagraphBreak) == content
  {
    var ps := Split(content, ParagraphBreak);
    var r := RenderContent(content);
    forall k | 0 <= k < |r|
      ensures BlockText(r[k]) == ps[k]
    {
      assert ps[k] in ps;
    }
    assert Texts(r) == ps;
    JoinSplit(content, ParagraphBreak);
  }

  /** The long content cut at blank lines, each piece rendered by the corrected block. */
  function RenderContentCorrected(content: string): (r: seq<Block>)
    ensures forall k :: 0 <= k < |r| ==> !Contains(BlockText(r[k]), ParagraphBreak)
    ensures Texts(r) == Split(content, ParagraphBreak)
  {
    var ps := Split(content, ParagraphBreak);
    SplitPiecesFree(content, ParagraphBreak);
    var r := seq(|ps|, k requires 0 <= k < |ps| => RenderBlock(ps[k]));
    assert Texts(r) == ps;
    r
  }

  /** Corrected rendering loses nothing: the blocks' texts joined by blank lines are the content. */
  lemma ContentRoundTrip(content: string)
    ensures Join(Texts(RenderContentCorrected(content)), ParagraphBreak) == content
  {
    JoinSplit(content, ParagraphBreak);
  }

  /** The article body: the rendered long content, or the description when there is none. */
  datatype Body = Blocks(blocks: seq<Block>) | Summary(text: string)

  /** `o || d` for an optional string. */
  function OrDefault(o: Option<string>, d: string): (r: string)
    ensures o.Some? && o.value != "" ==> r == o.value
    ensures o.None? || o.value == "" ==> r == d
  {
    if o.Some? && o.value != "" then o.value else d
  }

  function ArticleBody(a: Interview): (r: Body)
    ensures r.Blocks? <==> a.longContent.Some? && a.longContent.value != ""
    ensures r.Blocks? ==> r.blocks == RenderContent(a.longContent.value)
    ensures r.Blocks? ==> |r.blocks| == |Split(a.longContent.value, ParagraphBreak)|
    ensures r.Blocks? ==> forall k :: 0 <= k < |r.blocks| ==>
      BlockText(r.blocks[k]) <= Split(a.longContent.value, ParagraphBreak)[k]
    ensures r.Blocks? && (forall p :: p in Split(a.longContent.value, ParagraphBreak) ==> AtMostOneColon(p)) ==>
      Join(Texts(r.blocks), ParagraphBreak) == a.longContent.value
    ensures r.Summary? ==> r.text == OrDefault(a.description, "")
  {
    if a.longContent.Some? && a.longContent.value != "" then
      var c := a.longContent.value;
      assert (forall p :: p in Split(c, ParagraphBreak) ==> AtMostOneColon(p)) ==>
        Join(Texts(RenderContent(c)), ParagraphBreak) == c by {
        if forall p :: p in Split(c, ParagraphBreak) ==> AtMostOneColon(p) {
          ContentRoundTripAsWritten(c);
        }
      }
      Blocks(RenderContent(c))
    else Summary(OrDefault(a.description, ""))
  }

  const TagSeparator := ", "

  /** The keywords meta tag: the tags joined by ", ", or empty. */
  function KeywordsMeta(a: Interview): (r: string)
    ensures a.tags.None? || a.tags == Some([]) ==> r == ""
    ensures a.tags.Some? && |a.tags.value| == 1 ==> r == a.tags.value[0]
  {
    if a.tags.Some? then Join(a.tags.value, TagSeparator) else ""
  }

  /** A reader splitting the keywords at ", " gets the tags back, when no tag holds a comma. */
  lemma KeywordsMetaRoundTrip(a: Interview)
    requires a.tags.Some? && a.tags.value != []
    requires forall t, k :: t in a.tags.value && 0 <= k < |t| ==> t[k] != ','
    ensures Split(KeywordsMeta(a), TagSeparator) == a.tags.value
  {
    SplitJoin(a.tags.value, TagSeparator);
  }

  const TitleSuffix := " | Founder Storys"

  datatype Page =
    | NotFound
    | ArticlePage(
        article: Interview,
        documentTitle: string,
        description: string,
        keywords: string,
        byline: string,
        readTime: string,
        body: Body,
        trending: seq<Interview>)

  /** The article page for the route's id. */
  function ViewArticle(xs: seq<Interview>, id: string): (p: Page)
    ensures p.NotFound? <==> !HasId(xs, id)
    ensures p.ArticlePage? ==> p.article.id == id && p.article in xs
    ensures p.ArticlePage? ==> FindById(xs, id) == Some(p.article)
    ensures p.ArticlePage? ==> p.documentTitle == p.article.title + TitleSuffix
    ensures p.ArticlePage? ==> p.description == OrDefault(p.article.description, "")
    ensures p.ArticlePage? ==> p.keywords == KeywordsMeta(p.article)
    ensures p.ArticlePage? ==> p.byline == OrDefault(p.article.author, p.article.founderName)
    ensures p.ArticlePage? ==> p.readTime == OrDefault(p.article.readTime, "5 min read")
    ensures p.ArticlePage? ==> p.body == ArticleBody(p.article)
    ensures p.ArticlePage? ==> p.trending == Trending(xs, id)
  {
    match FindById(xs, id)
    case None => NotFound
    case Some(a) =>
      ArticlePage(
        a, a.title + TitleSuffix, OrDefault(a.description, ""), KeywordsMeta(a),
        OrDefault(a.author, a.founderName), OrDefault(a.readTime, "5 min read"),
        ArticleBody(a), Trending(xs, id))
  }
}
