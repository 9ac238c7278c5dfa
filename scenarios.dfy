/**
 * Worked cases of the renderer and of its options: a level-2 header, leaf text
 * reflowed or kept, an empty emphasis, a rejected set of header sizes and a
 * null bullet.
 */
module Scenarios {
  import opened Wrappers
  import opened Spannable
  import opened Rendering
  import RenderingFacts
  import JavaInt
  import Bypass

  /** `## Hi`: a block header of level 2 holding one inline text element. */
  function HeaderHi(): Element
  {
    Element(Header, map["level" := "2"], "", [Element(Text, map[], "Hi", [], false)], true)
  }

  /** The header's text child renders, under the header, to "Hi" with no span. */
  lemma {:induction false} HeaderChildExample(cfg: RenderConfig)
    ensures RenderingFacts.Kids(cfg, NoParent, HeaderHi()) == Ok([Rendered("Hi", [])])
  {
    var e := HeaderHi();
    var ctx := ChildContext(NoParent, e);
    assert FoldNewlines("Hi") == "Hi";
    RenderingFacts.TextLeafRender(cfg, ctx, e.children[0]);
    var rs := ChildRenders(cfg, ctx, e);
    assert rs == [Ok(Rendered("Hi", []))];
    assert rs[..0] == [];
    assert Collect(rs) == Then(Ok([]), rs[0]);
    assert [] + [Rendered("Hi", [])] == [Rendered("Hi", [])];
  }

  /** With the default sizes, a level-2 header is sized 1.4 and bold. */
  lemma {:induction false} HeaderStylesExample(cfg: RenderConfig)
    requires cfg.headerSizes == Bypass.DefaultHeaderSizes
    ensures OwnStyles(cfg, NoParent, HeaderHi()) == Ok([RelativeSize(1.4), StyleSpan(Bold)])
  {
    JavaInt.ParseIntToString(2);
    assert JavaInt.IntToString(2) == "2";
    assert HeaderHi().Attribute("level") == Some("2");
  }

  /** The header renders to "Hi\n", sized for h2 and bold, both spans over all three characters. */
  lemma {:induction false} HeaderExample(cfg: RenderConfig)
    requires cfg.headerSizes == Bypass.DefaultHeaderSizes
    ensures Render(cfg, NoParent, HeaderHi())
            == Ok(Rendered("Hi\n", [Span(RelativeSize(1.4), 0, 3), Span(StyleSpan(Bold), 0, 3)]))
  {
    HeaderChildExample(cfg);
    RenderUnfold(cfg, NoParent, HeaderHi());
    HeaderAssembled(cfg);
  }

  /** Laid out around its rendered child, the header is "Hi\n" with its two spans. */
  lemma {:induction false} HeaderAssembled(cfg: RenderConfig)
    requires cfg.headerSizes == Bypass.DefaultHeaderSizes
    ensures Assemble(cfg, NoParent, HeaderHi(), [Rendered("Hi", [])])
            == Ok(Rendered("Hi\n", [Span(RelativeSize(1.4), 0, 3), Span(StyleSpan(Bold), 0, 3)]))
  {
    var e := HeaderHi();
    var c := Rendered("Hi", []);
    HeaderStylesExample(cfg);
    HeaderBody();
    HeaderCover();
    var cover := Cover([RelativeSize(1.4), StyleSpan(Bold)], 3);
    assert Assemble(cfg, NoParent, e, [c]) == Ok(Rendered("Hi" + "\n", [] + cover));
    assert "Hi" + "\n" == "Hi\n";
    assert [] + cover == cover;
  }

  /** The header's empty prefix and leaf text followed by its child is just the child. */
  lemma {:induction false} HeaderBody()
    ensures Append(Rendered("" + LeafText(NoParent, HeaderHi()), []), Concat([Rendered("Hi", [])])) == Rendered("Hi", [])
  {
    var c := Rendered("Hi", []);
    assert Concat([c]) == c by {
      ConcatSingle(c);
      assert Append(Empty, c) == c;
    }
    assert Append(Rendered("" + LeafText(NoParent, HeaderHi()), []), c) == c;
  }

  /** The header's two styles over its three characters. */
  lemma {:induction false} HeaderCover()
    ensures Cover([RelativeSize(1.4), StyleSpan(Bold)], 3) == [Span(RelativeSize(1.4), 0, 3), Span(StyleSpan(Bold), 0, 3)]
  {
    var cover := Cover([RelativeSize(1.4), StyleSpan(Bold)], 3);
    assert cover[0] == Span(RelativeSize(1.4), 0, 3);
    assert cover[1] == Span(StyleSpan(Bold), 0, 3);
  }

  /** A document holding only that header renders the same way. */
  lemma {:induction false} HeaderDocumentExample(cfg: RenderConfig)
    requires cfg.headerSizes == Bypass.DefaultHeaderSizes
    ensures RenderDocument(cfg, Document([HeaderHi()]))
            == Ok(Rendered("Hi\n", [Span(RelativeSize(1.4), 0, 3), Span(StyleSpan(Bold), 0, 3)]))
  {
    RenderingFacts.DocumentSingle(cfg, HeaderHi());
    HeaderExample(cfg);
  }

  /** Leaf text inside a paragraph is reflowed. */
  lemma {:induction false} FoldExample(cfg: RenderConfig)
    ensures Render(cfg, Under(Paragraph, false), Element(Text, map[], "a\nb", [], false)) == Ok(Rendered("a b", []))
  {
    FoldedText();
    RenderingFacts.TextLeafRender(cfg, Under(Paragraph, false), Element(Text, map[], "a\nb", [], false));
  }

  /** Under a paragraph, the leaf text "a\nb" becomes "a b". */
  lemma {:induction false} FoldedText()
    ensures LeafText(Under(Paragraph, false), Element(Text, map[], "a\nb", [], false)) == "a b"
  {
    assert FoldNewlines("b") == "b";
    assert FoldNewlines("\nb") == " b";
    assert FoldNewlines("a\nb") == "a b";
  }

  /** Leaf text inside a code block keeps its newline. */
  lemma {:induction false} KeepExample(cfg: RenderConfig)
    ensures Render(cfg, Under(BlockCode, false), Element(Text, map[], "a\nb", [], false)) == Ok(Rendered("a\nb", []))
  {
    RenderingFacts.TextLeafRender(cfg, Under(BlockCode, false), Element(Text, map[], "a\nb", [], false));
  }

  /** An empty emphasis renders to nothing, and its italic span, over an empty range, is not kept. */
  lemma {:induction false} EmptyEmphasisExample(cfg: RenderConfig)
    ensures Render(cfg, Under(Paragraph, false), Element(Emphasis, map[], "", [], false)) == Ok(Rendered("", []))
  {
    var e := Element(Emphasis, map[], "", [], false);
    assert LeafText(Under(Paragraph, false), e) == "" by {
      assert FoldNewlines("") == "";
    }
    RenderingFacts.LeafRender(cfg, Under(Paragraph, false), e);
    assert "" + "" + "" == "";
  }

  /** The deprecated renderer, with default options, renders the header document as above. */
  method RenderHeaderDocument() returns (r: Result<Rendered, RenderError>)
    ensures r == Ok(Rendered("Hi\n", [Span(RelativeSize(1.4), 0, 3), Span(StyleSpan(Bold), 0, 3)]))
  {
    var renderer := new Bypass.Bypass.Legacy();
    r := renderer.MarkdownToSpannable(Document([HeaderHi()]));
    HeaderDocumentExample(renderer.Config());
  }

  /** Five header sizes are refused, and the default sizes stay in place. */
  method RejectFiveHeaderSizes() returns (r: Result<Bypass.Options, Bypass.OptionsError>, sizes: seq<real>)
    ensures r == Err(Bypass.WrongHeaderSizeCount(5))
    ensures sizes == Bypass.DefaultHeaderSizes
  {
    var options := new Bypass.Options();
    r := options.SetHeaderSizes(Some([2.0, 1.8, 1.6, 1.4, 1.2]));
    sizes := options.headerSizes;
  }

  /** A null bullet is accepted by the setter, and a list item then fails to render. */
  method NullBulletFails(item: Element) returns (r: Result<Rendered, RenderError>)
    requires item.kind == ListItem && item.children == []
    ensures r == Err(MissingBullet)
  {
    var options := new Bypass.Options();
    var same := options.SetListItem(None);
    var renderer := new Bypass.Bypass(options, (unit: int, size: real) => size);
    r := renderer.RecurseElement(item, Under(List, false));
    assert ChildRenders(renderer.Config(), ChildContext(Under(List, false), item), item) == [];
  }
}
