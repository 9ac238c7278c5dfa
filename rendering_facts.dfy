/**
 * What recurseElement and markdownToSpannable promise about their output: where
 * each child's text and spans land, which spans each variant attaches, how leaf
 * text is reflowed, and how a document's rendering is put together.
 */
module RenderingFacts {
  import opened Wrappers
  import opened Spannable
  import opened Rendering
  import JavaInt

  /** The children of `e`, rendered in its context (only meaningful when they all succeed). */
  function Kids(cfg: RenderConfig, parent: Parent, e: Element): Result<seq<Rendered>, RenderError>
  {
    Collect(ChildRenders(cfg, ChildContext(parent, e), e))
  }

  /**
   * `r` ends with exactly one span of each kind in `kinds`, in order, over all of
   * `r`, after `base` others; when `r` is empty no span is kept for them at all.
   */
  predicate AttachedExactly(r: Rendered, base: nat, kinds: seq<SpanKind>)
  {
    && |r.spans| == base + (if |r.text| == 0 then 0 else |kinds|)
    && (|r.text| > 0 ==> forall i :: 0 <= i < |kinds| ==> r.spans[base + i] == Span(kinds[i], 0, |r.text|))
  }

  /**
   * The context seen by an element whose ancestors, outermost first, are
   * `ancestors`, as the walk passes it down from a top-level element.
   */
  function ContextBelow(ancestors: seq<Element>): Parent
    decreases |ancestors|
  {
    if |ancestors| == 0 then NoParent
    else ChildContext(ContextBelow(ancestors[..|ancestors| - 1]), ancestors[|ancestors| - 1])
  }

  /**
   * An element has a parent exactly when it has an ancestor; the parent is its
   * nearest ancestor; and `getParent().getParent()` is non-null exactly when it
   * has two ancestors or more.
   */
  lemma {:induction false} ContextDepth(ancestors: seq<Element>)
    ensures ContextBelow(ancestors).Under? <==> |ancestors| >= 1
    ensures |ancestors| >= 1 ==> ContextBelow(ancestors).kind == ancestors[|ancestors| - 1].kind
    ensures |ancestors| >= 1 ==> (ContextBelow(ancestors).hasParent <==> |ancestors| >= 2)
    decreases |ancestors|
  {
    if |ancestors| >= 1 {
      ContextDepth(ancestors[..|ancestors| - 1]);
    }
  }

  /**
   * The children render one by one, in the element's context: all succeed exactly
   * when each does, and then rendered child j is child j's render.
   */
  lemma {:induction false} ChildrenElementwise(cfg: RenderConfig, parent: Parent, e: Element)
    ensures Kids(cfg, parent, e).Ok? <==>
              forall j :: 0 <= j < |e.children| ==> Render(cfg, ChildContext(parent, e), e.children[j]).Ok?
    ensures Kids(cfg, parent, e).Ok? ==>
              forall j :: 0 <= j < |e.children| ==>
                Render(cfg, ChildContext(parent, e), e.children[j]) == Ok(Kids(cfg, parent, e).value[j])
  {
    var rs := ChildRenders(cfg, ChildContext(parent, e), e);
    CollectElementwise(rs);
    assert forall j :: 0 <= j < |e.children| ==> rs[j] == Render(cfg, ChildContext(parent, e), e.children[j]);
  }

  /** Failing children fail with the error of the first child that fails. */
  lemma {:induction false} ChildrenFirstFailure(cfg: RenderConfig, parent: Parent, e: Element)
    requires Kids(cfg, parent, e).Err?
    ensures exists j :: 0 <= j < |e.children|
              && Render(cfg, ChildContext(parent, e), e.children[j]) == Err(Kids(cfg, parent, e).error)
              && forall i :: 0 <= i < j ==> Render(cfg, ChildContext(parent, e), e.children[i]).Ok?
  {
    var rs := ChildRenders(cfg, ChildContext(parent, e), e);
    CollectFirstFailure(rs);
    var j :| 0 <= j < |rs| && rs[j] == Err(Collect(rs).error) && forall i :: 0 <= i < j ==> rs[i].Ok?;
    assert forall i :: 0 <= i < |e.children| ==> rs[i] == Render(cfg, ChildContext(parent, e), e.children[i]);
  }

  /**
   * The layout of one element's output, given its rendered children: prefix, leaf
   * text, the children's text, then the trailer; the children's spans moved past
   * the prefix and leaf text, then the element's own spans, each over the whole
   * output. It succeeds exactly when the prefix and the spans do, and the prefix
   * is computed (and fails) first.
   */
  lemma {:induction false} AssembleShape(cfg: RenderConfig, parent: Parent, e: Element, kids: seq<Rendered>)
    ensures Assemble(cfg, parent, e, kids).Ok? <==> Prefix(cfg, parent, e).Ok? && OwnStyles(cfg, parent, e).Ok?
    ensures Prefix(cfg, parent, e).Err? ==> Assemble(cfg, parent, e, kids) == Err(Prefix(cfg, parent, e).error)
    ensures Prefix(cfg, parent, e).Ok? && OwnStyles(cfg, parent, e).Err? ==>
              Assemble(cfg, parent, e, kids) == Err(OwnStyles(cfg, parent, e).error)
    ensures Assemble(cfg, parent, e, kids).Ok? ==>
              var r := Assemble(cfg, parent, e, kids).value;
              var inner := Concat(kids);
              var prefix := Prefix(cfg, parent, e).value;
              && r.text == prefix + LeafText(parent, e) + inner.text + Trailer(e)
              && (forall i :: 0 <= i < |inner.spans| ==> r.spans[i] == inner.spans[i].ShiftedBy(|prefix| + |e.text|))
              && AttachedExactly(r, |inner.spans|, OwnStyles(cfg, parent, e).value)
  {
    if Prefix(cfg, parent, e).Ok? && OwnStyles(cfg, parent, e).Ok? {
      var prefix := Prefix(cfg, parent, e).value;
      var leaf := LeafText(parent, e);
      var inner := Concat(kids);
      var styles := OwnStyles(cfg, parent, e).value;
      LeafTextFacts(parent, e);
      Layout(prefix, leaf, inner, Trailer(e), styles, |prefix| + |e.text|);
      var body := Append(Rendered(prefix + leaf, []), inner);
      var text := body.text + Trailer(e);
      AssembleOk(cfg, parent, e, kids, text, body.spans + Cover(styles, |text|));
      assert Assemble(cfg, parent, e, kids).value == Rendered(text, body.spans + Cover(styles, |text|));
    }
  }

  /**
   * The layout `Assemble` builds, on plain values: the head text, then the inner
   * part with its spans moved past the head, then the trailer, then one span of
   * each style over everything.
   */
  lemma {:induction false} Layout(prefix: string, leaf: string, inner: Rendered, trailer: string, styles: seq<SpanKind>, shift: nat)
    requires shift == |prefix| + |leaf|
    ensures var body := Append(Rendered(prefix + leaf, []), inner);
            var text := body.text + trailer;
            var r := Rendered(text, body.spans + Cover(styles, |text|));
            && r.text == prefix + leaf + inner.text + trailer
            && (forall i :: 0 <= i < |inner.spans| ==> r.spans[i] == inner.spans[i].ShiftedBy(shift))
            && AttachedExactly(r, |inner.spans|, styles)
  {
    var body := Append(Rendered(prefix + leaf, []), inner);
    var text := body.text + trailer;
    var r := Rendered(text, body.spans + Cover(styles, |text|));
    CoverAfter(text, body.spans, styles);
    assert r.text == prefix + leaf + inner.text + trailer;
    forall i | 0 <= i < |inner.spans|
      ensures r.spans[i] == inner.spans[i].ShiftedBy(shift)
    {
      assert r.spans[i] == body.spans[i];
    }
  }

  /** Spans of the given styles appended after `base`, over all of `t`, are attached exactly. */
  lemma {:induction false} CoverAfter(t: string, base: seq<Span>, styles: seq<SpanKind>)
    ensures var r := Rendered(t, base + Cover(styles, |t|));
            && (forall i :: 0 <= i < |base| ==> r.spans[i] == base[i])
            && AttachedExactly(r, |base|, styles)
  {
    var cover := Cover(styles, |t|);
    if |t| > 0 {
      forall i | 0 <= i < |styles|
        ensures (base + cover)[|base| + i] == Span(styles[i], 0, |t|)
      {
        assert (base + cover)[|base| + i] == cover[i];
      }
    }
  }

  /**
   * The layout of one element's output (see AssembleShape), which renders exactly
   * when its children, its prefix and its spans all do, failing in that order.
   */
  lemma {:induction false} RenderShape(cfg: RenderConfig, parent: Parent, e: Element)
    ensures Render(cfg, parent, e).Ok? <==>
              Kids(cfg, parent, e).Ok? && Prefix(cfg, parent, e).Ok? && OwnStyles(cfg, parent, e).Ok?
    ensures Kids(cfg, parent, e).Err? ==> Render(cfg, parent, e) == Err(Kids(cfg, parent, e).error)
    ensures Kids(cfg, parent, e).Ok? && Prefix(cfg, parent, e).Err? ==> Render(cfg, parent, e) == Err(Prefix(cfg, parent, e).error)
    ensures Kids(cfg, parent, e).Ok? && Prefix(cfg, parent, e).Ok? && OwnStyles(cfg, parent, e).Err? ==>
              Render(cfg, parent, e) == Err(OwnStyles(cfg, parent, e).error)
    ensures Render(cfg, parent, e).Ok? ==>
              var r := Render(cfg, parent, e).value;
              var inner := Concat(Kids(cfg, parent, e).value);
              var prefix := Prefix(cfg, parent, e).value;
              && r.text == prefix + LeafText(parent, e) + inner.text + Trailer(e)
              && (forall i :: 0 <= i < |inner.spans| ==> r.spans[i] == inner.spans[i].ShiftedBy(|prefix| + |e.text|))
              && AttachedExactly(r, |inner.spans|, OwnStyles(cfg, parent, e).value)
  {
    RenderUnfold(cfg, parent, e);
    if Kids(cfg, parent, e).Ok? {
      AssembleShape(cfg, parent, e, Kids(cfg, parent, e).value);
    }
  }

  /** The part of RenderShape about text: a rendered element's prefix, leaf text, children's text and trailer. */
  lemma {:induction false} RenderText(cfg: RenderConfig, parent: Parent, e: Element)
    requires Render(cfg, parent, e).Ok?
    ensures Kids(cfg, parent, e).Ok? && Prefix(cfg, parent, e).Ok?
    ensures Render(cfg, parent, e).value.text
            == Prefix(cfg, parent, e).value + LeafText(parent, e) + Concat(Kids(cfg, parent, e).value).text + Trailer(e)
  {
    RenderShape(cfg, parent, e);
  }

  /** The children's rendering is found in the output right after the prefix and the leaf text, its spans first. */
  lemma {:induction false} ChildrenEmbedded(cfg: RenderConfig, parent: Parent, e: Element)
    requires Render(cfg, parent, e).Ok?
    ensures Kids(cfg, parent, e).Ok? && Prefix(cfg, parent, e).Ok?
    ensures PlacedAt(Render(cfg, parent, e).value, Concat(Kids(cfg, parent, e).value),
                     |Prefix(cfg, parent, e).value| + |e.text|, 0)
  {
    RenderShape(cfg, parent, e);
    var r := Render(cfg, parent, e).value;
    var inner := Concat(Kids(cfg, parent, e).value);
    var prefix := Prefix(cfg, parent, e).value;
    var head := |prefix| + |e.text|;
    assert r.text == (prefix + LeafText(parent, e)) + inner.text + Trailer(e);
    assert r.text[head..head + |inner.text|] == inner.text;
    assert |inner.spans| <= |r.spans|;
  }

  /**
   * Child j of a rendered element is rendered in the element's context, and it is
   * child j of the rendered children.
   */
  lemma {:induction false} ChildOfRendered(cfg: RenderConfig, parent: Parent, e: Element, j: nat)
    requires Render(cfg, parent, e).Ok? && j < |e.children|
    ensures Kids(cfg, parent, e).Ok? && j < |Kids(cfg, parent, e).value|
    ensures Render(cfg, ChildContext(parent, e), e.children[j]) == Ok(Kids(cfg, parent, e).value[j])
  {
    RenderShape(cfg, parent, e);
    ChildrenElementwise(cfg, parent, e);
  }

  /** A childless element renders to its prefix, its leaf text and its trailer, with only its own spans. */
  lemma {:induction false} LeafRender(cfg: RenderConfig, parent: Parent, e: Element)
    requires |e.children| == 0 && Prefix(cfg, parent, e).Ok? && OwnStyles(cfg, parent, e).Ok?
    ensures var text := Prefix(cfg, parent, e).value + LeafText(parent, e) + Trailer(e);
            Render(cfg, parent, e) == Ok(Rendered(text, Cover(OwnStyles(cfg, parent, e).value, |text|)))
  {
    assert Kids(cfg, parent, e) == Ok([]);
    assert Render(cfg, parent, e) == Assemble(cfg, parent, e, []);
    var head := Rendered(Prefix(cfg, parent, e).value + LeafText(parent, e), []);
    assert Concat([]) == Empty;
    assert Shift([], |head.text|) == [];
    assert Append(head, Empty) == Rendered(head.text + "", [] + []);
    assert head.text + "" == head.text;
    var text := head.text + Trailer(e);
    var cover := Cover(OwnStyles(cfg, parent, e).value, |text|);
    assert [] + cover == cover;
    assert Assemble(cfg, parent, e, []) == Ok(Rendered(text, head.spans + cover));
  }

  /** A childless inline text element renders to its leaf text alone, with no span. */
  lemma {:induction false} TextLeafRender(cfg: RenderConfig, parent: Parent, e: Element)
    requires e.kind == Text && |e.children| == 0 && !e.block
    ensures Render(cfg, parent, e) == Ok(Rendered(LeafText(parent, e), []))
  {
    assert Prefix(cfg, parent, e) == Ok("");
    assert OwnStyles(cfg, parent, e) == Ok([]);
    LeafRender(cfg, parent, e);
    assert "" + LeafText(parent, e) + Trailer(e) == LeafText(parent, e);
    assert Cover([], |LeafText(parent, e)|) == [];
  }

  /**
   * Leaf text: a childless element with a parent other than a code block has its
   * newlines turned into spaces, keeping its length; otherwise it is kept as is.
   * Either way it follows the prefix in the output.
   */
  lemma {:induction false} LeafFolding(cfg: RenderConfig, parent: Parent, e: Element)
    requires Render(cfg, parent, e).Ok?
    ensures var r := Render(cfg, parent, e).value;
            var p := |Prefix(cfg, parent, e).value|;
            var leaf := r.text[p..p + |e.text|];
            && p + |e.text| <= |r.text|
            && (Reflows(parent, e) ==>
                  && '\n' !in leaf
                  && forall i :: 0 <= i < |e.text| ==> leaf[i] == (if e.text[i] == '\n' then ' ' else e.text[i]))
            && (!Reflows(parent, e) ==> leaf == e.text)
  {
    RenderText(cfg, parent, e);
    var r := Render(cfg, parent, e).value;
    var prefix := Prefix(cfg, parent, e).value;
    Window(r.text, prefix, LeafText(parent, e), Concat(Kids(cfg, parent, e).value).text + Trailer(e));
    LeafTextFacts(parent, e);
  }

  /** Leaf text is folded exactly when it reflows, and keeps its length either way. */
  lemma {:induction false} LeafTextFacts(parent: Parent, e: Element)
    ensures |LeafText(parent, e)| == |e.text|
    ensures Reflows(parent, e) ==>
              && '\n' !in LeafText(parent, e)
              && forall i :: 0 <= i < |e.text| ==> LeafText(parent, e)[i] == (if e.text[i] == '\n' then ' ' else e.text[i])
    ensures !Reflows(parent, e) ==> LeafText(parent, e) == e.text
  {
  }

  /** In `prefix + middle + rest`, the middle is found right after the prefix. */
  lemma {:induction false} Window(t: string, prefix: string, middle: string, rest: string)
    requires t == prefix + middle + rest
    ensures |prefix| + |middle| <= |t| && t[|prefix|..|prefix| + |middle|] == middle
    ensures t[..|prefix| + |middle|] == prefix + middle
  {
    assert t == (prefix + middle) + rest;
  }

  /**
   * What an element's output starts with: a newline for a list nested in a list
   * item and for a line break, the bullet for a list item, the link for an
   * autolink, and otherwise its own leaf text.
   */
  lemma {:induction false} PrefixRule(cfg: RenderConfig, parent: Parent, e: Element)
    requires Render(cfg, parent, e).Ok?
    ensures var r := Render(cfg, parent, e).value;
            && ((e.kind == List && parent.Under? && parent.kind == ListItem) || e.kind == LineBreak ==>
                  |r.text| > 0 && r.text[0] == '\n' && r.text[1..1 + |e.text|] == LeafText(parent, e))
            && (e.kind == ListItem ==>
                  && cfg.bullet.Some?
                  && r.text[..|cfg.bullet.value| + |e.text|] == cfg.bullet.value + LeafText(parent, e))
            && (e.kind == AutoLink ==>
                  && "link" in e.attributes
                  && r.text[..|e.attributes["link"]| + |e.text|] == e.attributes["link"] + LeafText(parent, e))
            && (e.kind !in {ListItem, AutoLink, LineBreak} && !(e.kind == List && parent.Under? && parent.kind == ListItem) ==>
                  r.text[..|e.text|] == LeafText(parent, e))
  {
    RenderText(cfg, parent, e);
    var r := Render(cfg, parent, e).value;
    PrefixLayout(cfg, parent, e, r.text, Concat(Kids(cfg, parent, e).value).text + Trailer(e));
  }

  /** PrefixRule for any text made of the prefix, the leaf text and something after them. */
  lemma {:induction false} PrefixLayout(cfg: RenderConfig, parent: Parent, e: Element, t: string, rest: string)
    requires Prefix(cfg, parent, e).Ok? && t == Prefix(cfg, parent, e).value + LeafText(parent, e) + rest
    ensures && ((e.kind == List && parent.Under? && parent.kind == ListItem) || e.kind == LineBreak ==>
                  |t| > 0 && t[0] == '\n' && t[1..1 + |e.text|] == LeafText(parent, e))
            && (e.kind == ListItem ==>
                  && cfg.bullet.Some?
                  && t[..|cfg.bullet.value| + |e.text|] == cfg.bullet.value + LeafText(parent, e))
            && (e.kind == AutoLink ==>
                  && "link" in e.attributes
                  && t[..|e.attributes["link"]| + |e.text|] == e.attributes["link"] + LeafText(parent, e))
            && (e.kind !in {ListItem, AutoLink, LineBreak} && !(e.kind == List && parent.Under? && parent.kind == ListItem) ==>
                  t[..|e.text|] == LeafText(parent, e))
  {
    var prefix := Prefix(cfg, parent, e).value;
    var leaf := LeafText(parent, e);
    Window(t, prefix, leaf, rest);
    LeafTextFacts(parent, e);
    PrefixCases(cfg, parent, e);
  }

  /** The prefix by variant, as `Prefix` defines it, when it is produced. */
  lemma {:induction false} PrefixCases(cfg: RenderConfig, parent: Parent, e: Element)
    requires Prefix(cfg, parent, e).Ok?
    ensures var prefix := Prefix(cfg, parent, e).value;
            && ((e.kind == List && parent.Under? && parent.kind == ListItem) || e.kind == LineBreak ==> prefix == "\n")
            && (e.kind == ListItem ==> cfg.bullet.Some? && prefix == cfg.bullet.value)
            && (e.kind == AutoLink ==> "link" in e.attributes && prefix == e.attributes["link"])
            && (e.kind !in {ListItem, AutoLink, LineBreak} && !(e.kind == List && parent.Under? && parent.kind == ListItem) ==>
                  prefix == "")
  {
  }

  /**
   * Block elements other than list items end with a newline; a list item's output
   * is its bullet, its leaf text and its children's text and nothing more.
   */
  lemma {:induction false} TrailingNewline(cfg: RenderConfig, parent: Parent, e: Element)
    requires Render(cfg, parent, e).Ok?
    ensures var r := Render(cfg, parent, e).value;
            && (e.block && e.kind != ListItem ==> |r.text| > 0 && r.text[|r.text| - 1] == '\n')
            && (!e.block || e.kind == ListItem ==>
                  r.text == Prefix(cfg, parent, e).value + LeafText(parent, e) + Concat(Kids(cfg, parent, e).value).text)
  {
    RenderText(cfg, parent, e);
  }

  /** The part of RenderShape about spans: with the children rendered, an element gets exactly its own styles, or fails. */
  lemma {:induction false} RenderStyles(cfg: RenderConfig, parent: Parent, e: Element)
    requires Kids(cfg, parent, e).Ok?
    ensures Render(cfg, parent, e).Ok? <==> Prefix(cfg, parent, e).Ok? && OwnStyles(cfg, parent, e).Ok?
    ensures Prefix(cfg, parent, e).Err? ==> Render(cfg, parent, e) == Err(Prefix(cfg, parent, e).error)
    ensures Prefix(cfg, parent, e).Ok? && OwnStyles(cfg, parent, e).Err? ==>
              Render(cfg, parent, e) == Err(OwnStyles(cfg, parent, e).error)
    ensures Render(cfg, parent, e).Ok? ==>
              AttachedExactly(Render(cfg, parent, e).value, |Concat(Kids(cfg, parent, e).value).spans|, OwnStyles(cfg, parent, e).value)
  {
    RenderShape(cfg, parent, e);
  }

  /**
   * A header of level L, for L from 1 to the number of header sizes (six with
   * any Options), gets exactly the relative size of level L and bold, in that
   * order; a missing, non-numeric or out-of-range level fails the render.
   */
  lemma {:induction false} HeaderSpans(cfg: RenderConfig, parent: Parent, e: Element)
    requires e.kind == Header && Kids(cfg, parent, e).Ok?
    ensures var level := JavaInt.ParseInt(e.Attribute("level"));
            var levels := |cfg.headerSizes|;
            && (Render(cfg, parent, e).Ok? <==> level.Some? && 1 <= level.value <= levels)
            && (level.None? ==> Render(cfg, parent, e) == Err(BadLevel(e.Attribute("level"))))
            && (level.Some? && !(1 <= level.value <= levels) ==> Render(cfg, parent, e) == Err(LevelOutOfRange(level.value)))
            && (Render(cfg, parent, e).Ok? ==>
                  AttachedExactly(Render(cfg, parent, e).value, |Concat(Kids(cfg, parent, e).value).spans|,
                                  [RelativeSize(cfg.headerSizes[level.value - 1]), StyleSpan(Bold)]))
  {
    HeaderStyles(cfg, parent, e);
    RenderStyles(cfg, parent, e);
  }

  /** A header has no prefix; its styles are those of its level, or the level's error. */
  lemma {:induction false} HeaderStyles(cfg: RenderConfig, parent: Parent, e: Element)
    requires e.kind == Header
    ensures Prefix(cfg, parent, e).Ok?
    ensures var level := JavaInt.ParseInt(e.Attribute("level"));
            var levels := |cfg.headerSizes|;
            && (OwnStyles(cfg, parent, e).Ok? <==> level.Some? && 1 <= level.value <= levels)
            && (level.None? ==> OwnStyles(cfg, parent, e) == Err(BadLevel(e.Attribute("level"))))
            && (level.Some? && !(1 <= level.value <= levels) ==> OwnStyles(cfg, parent, e) == Err(LevelOutOfRange(level.value)))
            && (OwnStyles(cfg, parent, e).Ok? ==>
                  OwnStyles(cfg, parent, e).value == [RelativeSize(cfg.headerSizes[level.value - 1]), StyleSpan(Bold)])
  {
  }

  /**
   * With six header sizes, as valid Options keep, a header renders exactly when its
   * level parses to 1 through 6, and any other parsed level fails as an array
   * index out of range.
   */
  lemma {:induction false} HeaderLevelRange(cfg: RenderConfig, parent: Parent, e: Element)
    requires |cfg.headerSizes| == HeaderLevels && e.kind == Header && Kids(cfg, parent, e).Ok?
    ensures var level := JavaInt.ParseInt(e.Attribute("level"));
            && (Render(cfg, parent, e).Ok? <==> level.Some? && 1 <= level.value <= 6)
            && (level.Some? && !(1 <= level.value <= 6) ==> Render(cfg, parent, e) == Err(LevelOutOfRange(level.value)))
  {
    HeaderSpans(cfg, parent, e);
  }

  /** A block quote gets exactly the quote colour, the block-quote margin and italic, in that order. */
  lemma {:induction false} BlockQuoteSpans(cfg: RenderConfig, parent: Parent, e: Element)
    requires e.kind == BlockQuote && Kids(cfg, parent, e).Ok?
    ensures Render(cfg, parent, e).Ok?
    ensures AttachedExactly(Render(cfg, parent, e).value, |Concat(Kids(cfg, parent, e).value).spans|,
                            [QuoteSpan(cfg.quoteColor), LeadingMargin(cfg.blockQuoteIndent), StyleSpan(Italic)])
  {
    RenderStyles(cfg, parent, e);
  }

  /** A code block gets exactly the code-block margin and then monospace. */
  lemma {:induction false} BlockCodeSpans(cfg: RenderConfig, parent: Parent, e: Element)
    requires e.kind == BlockCode && Kids(cfg, parent, e).Ok?
    ensures Render(cfg, parent, e).Ok?
    ensures AttachedExactly(Render(cfg, parent, e).value, |Concat(Kids(cfg, parent, e).value).spans|,
                            [LeadingMargin(cfg.codeBlockIndent), TypefaceSpan("monospace")])
  {
    RenderStyles(cfg, parent, e);
  }

  /**
   * A list item needs a bullet and a parent (the bullet is appended first, so a
   * missing one is the error reported); it gets the list-item margin exactly when
   * that parent has a parent itself, and no other span.
   */
  lemma {:induction false} ListItemSpans(cfg: RenderConfig, parent: Parent, e: Element)
    requires e.kind == ListItem && Kids(cfg, parent, e).Ok?
    ensures Render(cfg, parent, e).Ok? <==> cfg.bullet.Some? && parent.Under?
    ensures cfg.bullet.None? ==> Render(cfg, parent, e) == Err(MissingBullet)
    ensures cfg.bullet.Some? && parent.NoParent? ==> Render(cfg, parent, e) == Err(ListItemWithoutParent)
    ensures Render(cfg, parent, e).Ok? ==>
              AttachedExactly(Render(cfg, parent, e).value, |Concat(Kids(cfg, parent, e).value).spans|,
                              if parent.hasParent then [LeadingMargin(cfg.listItemIndent)] else [])
  {
    RenderStyles(cfg, parent, e);
  }

  /** The inline variants get exactly one span each, kept when their output is not empty. */
  lemma {:induction false} InlineSpans(cfg: RenderConfig, parent: Parent, e: Element)
    requires e.kind in {Emphasis, DoubleEmphasis, TripleEmphasis, CodeSpan, Link, Strikethrough}
    requires Kids(cfg, parent, e).Ok?
    ensures Render(cfg, parent, e).Ok?
    ensures var kind := match e.kind
              case Emphasis => StyleSpan(Italic)
              case DoubleEmphasis => StyleSpan(Bold)
              case TripleEmphasis => StyleSpan(BoldItalic)
              case CodeSpan => TypefaceSpan("monospace")
              case Link => UrlSpan(e.Attribute("link"))
              case _ => StrikethroughSpan;
            AttachedExactly(Render(cfg, parent, e).value, |Concat(Kids(cfg, parent, e).value).spans|, [kind])
  {
    InlineStyles(cfg, parent, e);
    RenderStyles(cfg, parent, e);
  }

  /** The inline variants have no prefix and one style each. */
  lemma {:induction false} InlineStyles(cfg: RenderConfig, parent: Parent, e: Element)
    requires e.kind in {Emphasis, DoubleEmphasis, TripleEmphasis, CodeSpan, Link, Strikethrough}
    ensures Prefix(cfg, parent, e).Ok?
    ensures OwnStyles(cfg, parent, e).Ok?
    ensures OwnStyles(cfg, parent, e).value
            == [match e.kind
                case Emphasis => StyleSpan(Italic)
                case DoubleEmphasis => StyleSpan(Bold)
                case TripleEmphasis => StyleSpan(BoldItalic)
                case CodeSpan => TypefaceSpan("monospace")
                case Link => UrlSpan(e.Attribute("link"))
                case _ => StrikethroughSpan]
  {
  }

  /** An autolink shows its link as text and links it; without a link it fails. */
  lemma {:induction false} AutoLinkSpans(cfg: RenderConfig, parent: Parent, e: Element)
    requires e.kind == AutoLink && Kids(cfg, parent, e).Ok?
    ensures Render(cfg, parent, e).Ok? <==> "link" in e.attributes
    ensures "link" !in e.attributes ==> Render(cfg, parent, e) == Err(MissingLink)
    ensures Render(cfg, parent, e).Ok? ==>
              AttachedExactly(Render(cfg, parent, e).value, |Concat(Kids(cfg, parent, e).value).spans|,
                              [UrlSpan(Some(e.attributes["link"]))])
  {
    RenderStyles(cfg, parent, e);
  }

  /** Variants the span switch has no case for attach nothing: only their children's spans remain. */
  lemma {:induction false} UnstyledVariants(cfg: RenderConfig, parent: Parent, e: Element)
    requires e.kind.Other? || e.kind in {Paragraph, List, Text, LineBreak}
    requires Kids(cfg, parent, e).Ok?
    ensures Render(cfg, parent, e).Ok?
    ensures |Render(cfg, parent, e).value.spans| == |Concat(Kids(cfg, parent, e).value).spans|
  {
    NoOwnStyles(cfg, parent, e);
    RenderStyles(cfg, parent, e);
  }

  /** Those variants have an empty or fixed prefix and no styles of their own. */
  lemma {:induction false} NoOwnStyles(cfg: RenderConfig, parent: Parent, e: Element)
    requires e.kind.Other? || e.kind in {Paragraph, List, Text, LineBreak}
    ensures Prefix(cfg, parent, e).Ok? && OwnStyles(cfg, parent, e) == Ok([])
  {
  }

  /** The top-level elements of `doc`, each rendered without a parent (only meaningful when all succeed). */
  function Parts(cfg: RenderConfig, doc: Document): Result<seq<Rendered>, RenderError>
  {
    Collect(TopRenders(cfg, doc.elements))
  }

  /**
   * The top-level elements render one by one, each without a parent: all succeed
   * exactly when each does, and then part j is element j's render.
   */
  lemma {:induction false} TopLevelElementwise(cfg: RenderConfig, doc: Document)
    ensures Parts(cfg, doc).Ok? <==> forall j :: 0 <= j < |doc.elements| ==> Render(cfg, NoParent, doc.elements[j]).Ok?
    ensures Parts(cfg, doc).Ok? ==>
              forall j :: 0 <= j < |doc.elements| ==> Render(cfg, NoParent, doc.elements[j]) == Ok(Parts(cfg, doc).value[j])
  {
    var rs := TopRenders(cfg, doc.elements);
    CollectElementwise(rs);
    assert forall j :: 0 <= j < |doc.elements| ==> rs[j] == Render(cfg, NoParent, doc.elements[j]);
  }

  /** A document that fails to render fails with the error of its first failing top-level element. */
  lemma {:induction false} DocumentFirstFailure(cfg: RenderConfig, doc: Document)
    requires RenderDocument(cfg, doc).Err?
    ensures exists j :: 0 <= j < |doc.elements|
              && Render(cfg, NoParent, doc.elements[j]) == Err(RenderDocument(cfg, doc).error)
              && forall i :: 0 <= i < j ==> Render(cfg, NoParent, doc.elements[i]).Ok?
  {
    var rs := TopRenders(cfg, doc.elements);
    CollectFirstFailure(rs);
    var j :| 0 <= j < |rs| && rs[j] == Err(Collect(rs).error) && forall i :: 0 <= i < j ==> rs[i].Ok?;
    assert forall i :: 0 <= i < |doc.elements| ==> rs[i] == Render(cfg, NoParent, doc.elements[i]);
  }

  /** Two walks one after the other: the first failure wins, else the renders in order. */
  function Join(left: Result<seq<Rendered>, RenderError>, right: Result<seq<Rendered>, RenderError>): (r: Result<seq<Rendered>, RenderError>)
    ensures r.Ok? <==> left.Ok? && right.Ok?
    ensures r.Ok? ==> |r.value| == |left.value| + |right.value|
  {
    if left.Err? then left else if right.Err? then right else Ok(left.value + right.value)
  }

  /** Taking one more step after joining two walks is joining with the longer second walk. */
  lemma {:induction false} ThenAfterJoin(left: Result<seq<Rendered>, RenderError>, right: Result<seq<Rendered>, RenderError>, c: Result<Rendered, RenderError>)
    ensures Then(Join(left, right), c) == Join(left, Then(right, c))
  {
    if left.Ok? && right.Ok? && c.Ok? {
      assert left.value + right.value + [c.value] == left.value + (right.value + [c.value]);
    }
  }

  /** Walking over `xs + ys` is walking over xs, then over ys: the first failure wins, else all in order. */
  lemma {:induction false} CollectSplit(xs: seq<Result<Rendered, RenderError>>, ys: seq<Result<Rendered, RenderError>>)
    ensures Collect(xs + ys) == Join(Collect(xs), Collect(ys))
    decreases |ys|
  {
    if |ys| == 0 {
      assert xs + ys == xs;
      if Collect(xs).Ok? {
        assert Collect(xs).value + [] == Collect(xs).value;
      }
    } else {
      var front := ys[..|ys| - 1];
      assert (xs + ys)[..|xs + ys| - 1] == xs + front;
      assert (xs + ys)[|xs + ys| - 1] == ys[|ys| - 1];
      CollectSplit(xs, front);
      ThenAfterJoin(Collect(xs), Collect(front), ys[|ys| - 1]);
    }
  }

  /** Top-level elements are rendered independently, so their renders split with the document. */
  lemma {:induction false} TopRendersSplit(cfg: RenderConfig, xs: seq<Element>, ys: seq<Element>)
    ensures TopRenders(cfg, xs + ys) == TopRenders(cfg, xs) + TopRenders(cfg, ys)
  {
    var whole, left, right := TopRenders(cfg, xs + ys), TopRenders(cfg, xs), TopRenders(cfg, ys);
    forall j | 0 <= j < |whole|
      ensures whole[j] == (left + right)[j]
    {
      if j < |xs| {
        assert (xs + ys)[j] == xs[j];
        assert whole[j] == left[j];
        assert (left + right)[j] == left[j];
      } else {
        assert (xs + ys)[j] == ys[j - |xs|];
        assert whole[j] == right[j - |xs|];
        assert (left + right)[j] == right[j - |xs|];
      }
    }
  }

  /**
   * The rendering of two documents one after the other is the first rendering
   * followed by the second, with nothing in between; the first failure wins.
   */
  lemma {:induction false} DocumentAppend(cfg: RenderConfig, xs: seq<Element>, ys: seq<Element>)
    ensures var whole := RenderDocument(cfg, Document(xs + ys));
            var left := RenderDocument(cfg, Document(xs));
            var right := RenderDocument(cfg, Document(ys));
            && (left.Err? ==> whole == left)
            && (left.Ok? && right.Err? ==> whole == right)
            && (left.Ok? && right.Ok? ==> whole == Ok(Append(left.value, right.value)))
  {
    TopRendersSplit(cfg, xs, ys);
    CollectSplit(TopRenders(cfg, xs), TopRenders(cfg, ys));
    var left := Collect(TopRenders(cfg, xs));
    var right := Collect(TopRenders(cfg, ys));
    if left.Ok? && right.Ok? {
      ConcatSplit(left.value, right.value);
    }
  }

  /** A document of one element renders exactly as that element does without a parent. */
  lemma {:induction false} DocumentSingle(cfg: RenderConfig, e: Element)
    ensures RenderDocument(cfg, Document([e])) == Render(cfg, NoParent, e)
  {
    var rs := TopRenders(cfg, [e]);
    var c := Render(cfg, NoParent, e);
    assert rs == [c];
    assert rs[..0] == [];
    assert Collect(rs) == Then(Ok([]), c);
    if c.Ok? {
      assert [] + [c.value] == [c.value];
      ConcatSingle(c.value);
    }
  }

  /**
   * Top-level element j of a rendered document sits, with all its spans, right
   * after the elements before it; and every span lies inside the document's text.
   */
  lemma {:induction false} DocumentPlacement(cfg: RenderConfig, doc: Document, j: nat)
    requires RenderDocument(cfg, doc).Ok? && j < |doc.elements|
    ensures Parts(cfg, doc).Ok? && j < |Parts(cfg, doc).value|
    ensures Render(cfg, NoParent, doc.elements[j]) == Ok(Parts(cfg, doc).value[j])
    ensures WellFormed(RenderDocument(cfg, doc).value)
    ensures var before := Concat(Parts(cfg, doc).value[..j]);
            PlacedAt(RenderDocument(cfg, doc).value, Parts(cfg, doc).value[j], |before.text|, |before.spans|)
  {
    var parts := Parts(cfg, doc).value;
    TopLevelElementwise(cfg, doc);
    ConcatPlacement(parts, j);
  }
}
