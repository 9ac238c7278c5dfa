/**
 * The classes of Bypass.java: the renderer `Bypass`, which walks a parsed
 * document and builds styled text with a SpanBuilder, and its mutable
 * configuration `Options`.
 */
module Bypass {
  import opened Wrappers
  import opened Spannable
  import opened Rendering
  import JavaInt

  const DefaultHeaderSizes: seq<real> := [1.5, 1.4, 1.3, 1.2, 1.1, 1.0]

  /** U+2022 BULLET. */
  const DefaultBullet: string := "\U{2022}"

  /** The bits of the Java int literal 0xff0000ff (opaque blue). */
  const DefaultBlockQuoteColor: bv32 := 0xff0000ff

  /** TypedValue.COMPLEX_UNIT_DIP. */
  const ComplexUnitDip := 1

  const DefaultIndentSize: real := 10.0

  /** The IllegalArgumentExceptions of Options.setHeaderSizes. */
  datatype OptionsError = NullHeaderSizes | WrongHeaderSizeCount(count: nat)

  /** Configurable options for how elements are rendered. */
  class Options {
    var headerSizes: seq<real>
    var listItem: Option<string>
    var listItemIndentUnit: int
    var listItemIndentSize: real
    var blockQuoteColor: bv32
    var blockQuoteIndentUnit: int
    var blockQuoteIndentSize: real
    var codeBlockIndentUnit: int
    var codeBlockIndentSize: real

    /** The header sizes are one per level; no setter can break this. */
    ghost predicate Valid()
      reads this
    {
      |headerSizes| == HeaderLevels
    }

    ghost predicate HasDefaults()
      reads this
    {
      && headerSizes == DefaultHeaderSizes
      && listItem == Some(DefaultBullet)
      && listItemIndentUnit == ComplexUnitDip && listItemIndentSize == DefaultIndentSize
      && blockQuoteColor == DefaultBlockQuoteColor
      && blockQuoteIndentUnit == ComplexUnitDip && blockQuoteIndentSize == DefaultIndentSize
      && codeBlockIndentUnit == ComplexUnitDip && codeBlockIndentSize == DefaultIndentSize
    }

    constructor ()
      ensures Valid() && HasDefaults()
    {
      headerSizes := DefaultHeaderSizes;
      listItem := Some(DefaultBullet);
      listItemIndentUnit, listItemIndentSize := ComplexUnitDip, DefaultIndentSize;
      blockQuoteColor := DefaultBlockQuoteColor;
      blockQuoteIndentUnit, blockQuoteIndentSize := ComplexUnitDip, DefaultIndentSize;
      codeBlockIndentUnit, codeBlockIndentSize := ComplexUnitDip, DefaultIndentSize;
    }

    /**
     * Replaces the header sizes, which must be given and be exactly six; otherwise
     * nothing changes and the call fails. On success the result is this object.
     */
    method SetHeaderSizes(sizes: Option<seq<real>>) returns (r: Result<Options, OptionsError>)
      modifies this`headerSizes
      ensures sizes.None? ==> r == Err(NullHeaderSizes)
      ensures sizes.Some? && |sizes.value| != HeaderLevels ==> r == Err(WrongHeaderSizeCount(|sizes.value|))
      ensures r.Ok? <==> sizes.Some? && |sizes.value| == HeaderLevels
      ensures r.Ok? ==> r.value == this && headerSizes == sizes.value
      ensures r.Err? ==> headerSizes == old(headerSizes)
      ensures old(Valid()) ==> Valid()
    {
      if sizes.None? {
        return Err(NullHeaderSizes);
      } else if |sizes.value| != HeaderLevels {
        return Err(WrongHeaderSizeCount(|sizes.value|));
      }
      headerSizes := sizes.value;
      return Ok(this);
    }

    /** Replaces the bullet text; `None` is a null bullet, which the setter accepts. */
    method SetListItem(listItem: Option<string>) returns (self: Options)
      modifies this`listItem
      ensures self == this && this.listItem == listItem
    {
      this.listItem := listItem;
      return this;
    }

    method SetListItemIndentSize(unit: int, size: real) returns (self: Options)
      modifies this`listItemIndentUnit, this`listItemIndentSize
      ensures self == this && listItemIndentUnit == unit && listItemIndentSize == size
    {
      listItemIndentUnit, listItemIndentSize := unit, size;
      return this;
    }

    method SetBlockQuoteColor(color: bv32) returns (self: Options)
      modifies this`blockQuoteColor
      ensures self == this && blockQuoteColor == color
    {
      blockQuoteColor := color;
      return this;
    }

    method SetBlockQuoteIndentSize(unit: int, size: real) returns (self: Options)
      modifies this`blockQuoteIndentUnit, this`blockQuoteIndentSize
      ensures self == this && blockQuoteIndentUnit == unit && blockQuoteIndentSize == size
    {
      blockQuoteIndentUnit, blockQuoteIndentSize := unit, size;
      return this;
    }

    method SetCodeBlockIndentSize(unit: int, size: real) returns (self: Options)
      modifies this`codeBlockIndentUnit, this`codeBlockIndentSize
      ensures self == this && codeBlockIndentUnit == unit && codeBlockIndentSize == size
    {
      codeBlockIndentUnit, codeBlockIndentSize := unit, size;
      return this;
    }
  }

  /**
   * An indent resolved by the host's unit conversion (TypedValue.applyDimension
   * with the display metrics) and narrowed to an int.
   */
  function ResolveIndent(applyDimension: (int, real) -> real, unit: int, size: real): (px: int)
    ensures JavaInt.InRange(px)
  {
    JavaInt.FloatToInt(applyDimension(unit, size))
  }

  /** The renderer: options shared with the caller, and indents fixed when it is built. */
  class Bypass {
    const options: Options
    const listItemIndent: int
    const blockQuoteIndent: int
    const codeBlockIndent: int

    /** The deprecated no-argument constructor, with fixed pixel indents. */
    constructor Legacy()
      ensures fresh(options) && options.Valid() && options.HasDefaults()
      ensures listItemIndent == 20 && blockQuoteIndent == 10 && codeBlockIndent == 10
    {
      options := new Options();
      listItemIndent, blockQuoteIndent, codeBlockIndent := 20, 10, 10;
    }

    /** Bypass(Context): default options, indents converted by the host. */
    constructor WithContext(applyDimension: (int, real) -> real)
      ensures fresh(options) && options.Valid() && options.HasDefaults()
      ensures listItemIndent == ResolveIndent(applyDimension, ComplexUnitDip, DefaultIndentSize)
      ensures blockQuoteIndent == ResolveIndent(applyDimension, ComplexUnitDip, DefaultIndentSize)
      ensures codeBlockIndent == ResolveIndent(applyDimension, ComplexUnitDip, DefaultIndentSize)
    {
      var o := new Options();
      options := o;
      listItemIndent := ResolveIndent(applyDimension, o.listItemIndentUnit, o.listItemIndentSize);
      blockQuoteIndent := ResolveIndent(applyDimension, o.blockQuoteIndentUnit, o.blockQuoteIndentSize);
      codeBlockIndent := ResolveIndent(applyDimension, o.codeBlockIndentUnit, o.codeBlockIndentSize);
    }

    /** Bypass(Context, Options): the given options, indents converted from their units and sizes. */
    constructor (options: Options, applyDimension: (int, real) -> real)
      requires options.Valid()
      ensures this.options == options
      ensures listItemIndent == ResolveIndent(applyDimension, options.listItemIndentUnit, options.listItemIndentSize)
      ensures blockQuoteIndent == ResolveIndent(applyDimension, options.blockQuoteIndentUnit, options.blockQuoteIndentSize)
      ensures codeBlockIndent == ResolveIndent(applyDimension, options.codeBlockIndentUnit, options.codeBlockIndentSize)
    {
      this.options := options;
      listItemIndent := ResolveIndent(applyDimension, options.listItemIndentUnit, options.listItemIndentSize);
      blockQuoteIndent := ResolveIndent(applyDimension, options.blockQuoteIndentUnit, options.blockQuoteIndentSize);
      codeBlockIndent := ResolveIndent(applyDimension, options.codeBlockIndentUnit, options.codeBlockIndentSize);
    }

    /** What a render reads: the options as they are now, and the fixed indents. */
    function Config(): (c: RenderConfig)
      reads options
      ensures options.Valid() ==> |c.headerSizes| == HeaderLevels
    {
      RenderConfig(options.headerSizes, options.listItem, options.blockQuoteColor,
                   listItemIndent, blockQuoteIndent, codeBlockIndent)
    }

    /** setSpan: a span of kind `what` over everything in the builder, kept unless the builder is empty. */
    static method SetSpan(builder: SpanBuilder, what: SpanKind)
      requires builder.Valid()
      modifies builder
      ensures builder.Valid() && builder.text == old(builder.text)
      ensures builder.spans == old(builder.spans) + Cover([what], |builder.text|)
    {
      builder.SetSpan(what, 0, |builder.text|);
    }

    /** The first switch of recurseElement: the variant's prefix, into an empty builder. */
    method AppendPrefix(builder: SpanBuilder, e: Element, parent: Parent) returns (err: Option<RenderError>)
      requires builder.Valid() && builder.text == [] && builder.spans == []
      modifies builder
      ensures builder.Valid() && builder.spans == []
      ensures err.None? <==> Prefix(Config(), parent, e).Ok?
      ensures err.Some? ==> Prefix(Config(), parent, e) == Err(err.value)
      ensures err.None? ==> builder.text == Prefix(Config(), parent, e).value
    {
      match e.kind {
        case List =>
          if parent.Under? && parent.kind == ListItem {
            builder.AppendText("\n");
          }
          assert builder.text == if parent.Under? && parent.kind == ListItem then "\n" else "";
        case LineBreak =>
          builder.AppendText("\n");
          assert builder.text == "\n";
        case ListItem =>
          if options.listItem.None? {
            return Some(MissingBullet);
          }
          builder.AppendText(options.listItem.value);
          assert builder.text == options.listItem.value;
        case AutoLink =>
          var link := e.Attribute("link");
          if link.None? {
            return Some(MissingLink);
          }
          builder.AppendText(link.value);
          assert builder.text == link.value;
        case _ =>
      }
      return None;
    }

    /** The header case of the second switch: the size of the header's level, then bold. */
    method AttachHeaderSpans(builder: SpanBuilder, e: Element) returns (err: Option<RenderError>)
      requires builder.Valid() && e.kind == Header
      modifies builder
      ensures builder.Valid() && builder.text == old(builder.text)
      ensures err.None? <==> OwnStyles(Config(), NoParent, e).Ok?
      ensures err.Some? ==> OwnStyles(Config(), NoParent, e) == Err(err.value) && builder.spans == old(builder.spans)
      ensures err.None? ==> builder.spans == old(builder.spans) + Cover(OwnStyles(Config(), NoParent, e).value, |builder.text|)
    {
      ghost var before := builder.spans;
      ghost var len := |builder.text|;
      var levelStr := e.Attribute("level");
      var level := JavaInt.ParseInt(levelStr);
      if level.None? {
        return Some(BadLevel(levelStr));
      }
      if !(0 <= level.value - 1 < |options.headerSizes|) {
        return Some(LevelOutOfRange(level.value));
      }
      SetSpan(builder, RelativeSize(options.headerSizes[level.value - 1]));
      SetSpan(builder, StyleSpan(Bold));
      assert builder.spans == before + Cover([RelativeSize(options.headerSizes[level.value - 1]), StyleSpan(Bold)], len);
      return None;
    }

    /** The second switch of recurseElement: the variant's spans, over the whole builder. */
    method AttachSpans(builder: SpanBuilder, e: Element, parent: Parent) returns (err: Option<RenderError>)
      requires builder.Valid()
      modifies builder
      ensures builder.Valid() && builder.text == old(builder.text)
      ensures err.None? <==> OwnStyles(Config(), parent, e).Ok?
      ensures err.Some? ==> OwnStyles(Config(), parent, e) == Err(err.value) && builder.spans == old(builder.spans)
      ensures err.None? ==> builder.spans == old(builder.spans) + Cover(OwnStyles(Config(), parent, e).value, |builder.text|)
    {
      ghost var before := builder.spans;
      ghost var len := |builder.text|;
      match e.kind {
        case Header =>
          err := AttachHeaderSpans(builder, e);
        case ListItem =>
          if parent.NoParent? {
            return Some(ListItemWithoutParent);
          }
          if parent.hasParent {
            SetSpan(builder, LeadingMargin(listItemIndent));
            assert builder.spans == before + Cover([LeadingMargin(listItemIndent)], len);
          } else {
            assert builder.spans == before + Cover([], len);
          }
          err := None;
        case _ =>
          AttachFixedSpans(builder, e);
          err := None;
      }
    }

    /** The cases of the second switch that cannot fail: each variant's fixed spans. */
    method AttachFixedSpans(builder: SpanBuilder, e: Element)
      requires builder.Valid() && e.kind != Header && e.kind != ListItem
      modifies builder
      ensures builder.Valid() && builder.text == old(builder.text)
      ensures OwnStyles(Config(), NoParent, e).Ok?
      ensures builder.spans == old(builder.spans) + Cover(OwnStyles(Config(), NoParent, e).value, |builder.text|)
    {
      ghost var before := builder.spans;
      ghost var len := |builder.text|;
      match e.kind {
        case Emphasis =>
          SetSpan(builder, StyleSpan(Italic));
          assert builder.spans == before + Cover([StyleSpan(Italic)], len);
        case DoubleEmphasis =>
          SetSpan(builder, StyleSpan(Bold));
          assert builder.spans == before + Cover([StyleSpan(Bold)], len);
        case TripleEmphasis =>
          SetSpan(builder, StyleSpan(BoldItalic));
          assert builder.spans == before + Cover([StyleSpan(BoldItalic)], len);
        case BlockCode =>
          SetSpan(builder, LeadingMargin(codeBlockIndent));
          SetSpan(builder, TypefaceSpan("monospace"));
          assert builder.spans == before + Cover([LeadingMargin(codeBlockIndent), TypefaceSpan("monospace")], len);
        case CodeSpan =>
          SetSpan(builder, TypefaceSpan("monospace"));
          assert builder.spans == before + Cover([TypefaceSpan("monospace")], len);
        case Link =>
          SetSpan(builder, UrlSpan(e.Attribute("link")));
          assert builder.spans == before + Cover([UrlSpan(e.Attribute("link"))], len);
        case AutoLink =>
          SetSpan(builder, UrlSpan(e.Attribute("link")));
          assert builder.spans == before + Cover([UrlSpan(e.Attribute("link"))], len);
        case BlockQuote =>
          SetSpan(builder, QuoteSpan(options.blockQuoteColor));
          SetSpan(builder, LeadingMargin(blockQuoteIndent));
          SetSpan(builder, StyleSpan(Italic));
          assert builder.spans == before + Cover([QuoteSpan(options.blockQuoteColor), LeadingMargin(blockQuoteIndent), StyleSpan(Italic)], len);
        case Strikethrough =>
          SetSpan(builder, StrikethroughSpan);
          assert builder.spans == before + Cover([StrikethroughSpan], len);
        case List | Paragraph | LineBreak | Text | Other(_) =>
          assert builder.spans == before + Cover([], len);
      }
    }

    /** The loop of recurseElement over the children, each rendered under `ctx`. */
    method RecurseChildren(e: Element, ctx: Parent) returns (r: Result<seq<Rendered>, RenderError>)
      requires options.Valid()
      ensures r == Collect(ChildRenders(Config(), ctx, e))
      decreases e, 1
    {
      ghost var cfg := Config();
      ghost var rs := ChildRenders(cfg, ctx, e);
      var n := |e.children|;
      var spans := new Rendered[n];
      var i := 0;
      while i < n
        invariant 0 <= i <= n && Config() == cfg && options.Valid()
        invariant Collect(rs[..i]) == Ok(spans[..i])
      {
        var c := RecurseChild(e, ctx, i, cfg, rs, spans);
        if c.Err? {
          return Err(c.error);
        }
        i := i + 1;
      }
      CollectWhole(rs);
      assert spans[..] == spans[..n];
      return Ok(spans[..]);
    }

    /**
     * One turn of that loop: child i rendered with the configuration `cfg` and
     * stored in `spans`, after the children before it rendered to `spans[..i]`;
     * `rs` are the renders of all children.
     */
    method RecurseChild(e: Element, ctx: Parent, i: nat, ghost cfg: RenderConfig,
                        ghost rs: seq<Result<Rendered, RenderError>>, spans: array<Rendered>)
      returns (c: Result<Rendered, RenderError>)
      requires options.Valid() && cfg == Config() && rs == ChildRenders(cfg, ctx, e)
      requires i < |e.children| == spans.Length && Collect(rs[..i]) == Ok(spans[..i])
      modifies spans
      ensures c.Err? ==> Collect(rs) == Err(c.error)
      ensures c.Ok? ==> Collect(rs[..i + 1]) == Ok(spans[..i + 1])
      decreases e, 0
    {
      ghost var done := spans[..i];
      c := RecurseElement(e.children[i], ctx);
      ChildStep(cfg, ctx, e, i, done);
      if c.Ok? {
        spans[i] := c.value;
        assert spans[..i + 1] == done + [c.value];
      }
    }

    /** recurseElement: renders `e`, whose parent is described by `parent`. */
    method RecurseElement(e: Element, parent: Parent) returns (r: Result<Rendered, RenderError>)
      requires options.Valid()
      ensures r == Render(Config(), parent, e)
      decreases e, 2
    {
      ghost var cfg := Config();
      var children := RecurseChildren(e, ChildContext(parent, e));
      RenderUnfold(cfg, parent, e);
      if children.Err? {
        return Err(children.error);
      }
      CollectWellFormed(ChildRenders(cfg, ChildContext(parent, e), e));
      r := LayOut(e, parent, children.value);
    }

    /** The rest of recurseElement, once the children are rendered: prefix, text, children, trailer, spans. */
    method LayOut(e: Element, parent: Parent, kids: seq<Rendered>) returns (r: Result<Rendered, RenderError>)
      requires AllWellFormed(kids)
      ensures r == Assemble(Config(), parent, e, kids)
    {
      ghost var cfg := Config();
      var concat := Concat(kids);

      var builder := new SpanBuilder();

      var text := e.text;
      if |e.children| == 0 && parent.Under? && parent.kind != BlockCode {
        text := FoldNewlines(text);
      }
      assert text == LeafText(parent, e);

      var failed := AppendPrefix(builder, e, parent);
      if failed.Some? {
        PrefixFails(cfg, parent, e, kids);
        return Err(failed.value);
      }
      ghost var prefix := builder.text;

      builder.AppendText(text);
      builder.AppendStyled(concat);

      if e.block && e.kind != ListItem {
        builder.AppendText("\n");
      }
      assert builder.text == Append(Rendered(prefix + text, []), concat).text + Trailer(e);
      assert builder.spans == Append(Rendered(prefix + text, []), concat).spans;

      failed := AttachSpans(builder, e, parent);
      if failed.Some? {
        StylesFail(cfg, parent, e, kids);
        return Err(failed.value);
      }
      AssembleOk(cfg, parent, e, kids, builder.text, builder.spans);
      return Ok(builder.Current());
    }

    /** markdownToSpannable, given the parsed document: the top-level renders, concatenated. */
    method MarkdownToSpannable(doc: Document) returns (r: Result<Rendered, RenderError>)
      requires options.Valid()
      ensures r == RenderDocument(Config(), doc)
    {
      ghost var cfg := Config();
      var n := |doc.elements|;
      var spans := new Rendered[n];
      for i := 0 to n
        invariant Config() == cfg
        invariant Collect(TopRenders(cfg, doc.elements)[..i]) == Ok(spans[..i])
      {
        var c := RecurseElement(doc.elements[i], NoParent);
        TopStep(cfg, doc.elements, i, spans[..i]);
        if c.Err? {
          return Err(c.error);
        }
        spans[i] := c.value;
        assert spans[..i + 1] == spans[..i] + [c.value];
      }
      CollectWhole(TopRenders(cfg, doc.elements));
      assert spans[..] == spans[..n];
      return Ok(Concat(spans[..]));
    }
  }
}
