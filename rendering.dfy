/**
 * The tree-to-styled-text walk of Bypass.recurseElement, as functions: an element
 * renders to its prefix, its (possibly reflowed) leaf text, its children's
 * renderings and, for block elements, a newline; then spans for its own variant
 * are attached over the whole of that output.
 */
module Rendering {
  import opened Wrappers
  import opened Spannable
  import JavaInt

  /** Element.Type: the variants the renderer distinguishes, and the rest. */
  datatype Kind =
    | BlockCode | BlockQuote | Header | List | ListItem | Paragraph
    | CodeSpan | DoubleEmphasis | Emphasis | TripleEmphasis | LineBreak
    | Link | AutoLink | Strikethrough | Text
    | Other(name: string)   // any variant the renderer has no case for

  /** A node of the parse tree, as the renderer reads it. */
  datatype Element = Element(
    kind: Kind,
    attributes: map<string, string>,
    text: string,
    children: seq<Element>,
    block: bool)               // Element.isBlockElement()
  {
    /** `getAttribute(key)`: null when the key is absent. */
    function Attribute(key: string): Option<string>
    {
      if key in attributes then Some(attributes[key]) else None
    }
  }

  /** A parsed document: its top-level elements in order. */
  datatype Document = Document(elements: seq<Element>)

  /**
   * What the renderer can learn about an element's parent: whether there is one,
   * its variant, and whether it has a parent itself.
   */
  datatype Parent = NoParent | Under(kind: Kind, hasParent: bool)

  /** The parent context that the children of `e` see. */
  function ChildContext(parent: Parent, e: Element): Parent
  {
    Under(e.kind, parent.Under?)
  }

  /** One header size per level, h1 through h6. */
  const HeaderLevels := 6

  /**
   * The configuration one render reads: the options' header sizes, bullet and
   * quote colour, and the three indents resolved when the renderer was built.
   */
  datatype RenderConfig = RenderConfig(
    headerSizes: seq<real>,
    bullet: Option<string>,
    quoteColor: bv32,
    listItemIndent: int,
    blockQuoteIndent: int,
    codeBlockIndent: int)

  /** The exceptions a render can throw, by their cause. */
  datatype RenderError =
    | MissingLink                     // AUTOLINK without "link": append(null)
    | MissingBullet                   // LIST_ITEM with a null bullet: append(null)
    | BadLevel(levelText: Option<string>) // HEADER level null or not a number: NumberFormatException
    | LevelOutOfRange(level: int)     // mHeaderSizes[level - 1] out of bounds
    | ListItemWithoutParent           // LIST_ITEM with a null parent: getParent().getParent()

  /** `text.replace('\n', ' ')`. */
  function FoldNewlines(s: string): (r: string)
    ensures |r| == |s|
    ensures forall i :: 0 <= i < |s| ==> r[i] == (if s[i] == '\n' then ' ' else s[i])
    ensures '\n' !in r
  {
    if |s| == 0 then ""
    else [if s[0] == '\n' then ' ' else s[0]] + FoldNewlines(s[1..])
  }

  /** A childless element with a parent that is not a code block has its text reflowed: its newlines become spaces. */
  predicate Reflows(parent: Parent, e: Element)
  {
    |e.children| == 0 && parent.Under? && parent.kind != BlockCode
  }

  function LeafText(parent: Parent, e: Element): string
  {
    if Reflows(parent, e) then FoldNewlines(e.text) else e.text
  }

  /** The text inserted before the leaf text, by variant. */
  function Prefix(cfg: RenderConfig, parent: Parent, e: Element): Result<string, RenderError>
  {
    match e.kind
    case List => Ok(if parent.Under? && parent.kind == ListItem then "\n" else "")
    case LineBreak => Ok("\n")
    case ListItem => if cfg.bullet.Some? then Ok(cfg.bullet.value) else Err(MissingBullet)
    case AutoLink => if e.Attribute("link").Some? then Ok(e.Attribute("link").value) else Err(MissingLink)
    case _ => Ok("")
  }

  /** Block elements other than list items end their own line. */
  function Trailer(e: Element): string
  {
    if e.block && e.kind != ListItem then "\n" else ""
  }

  /** The spans attached over an element's whole output, in the order they are attached. */
  function OwnStyles(cfg: RenderConfig, parent: Parent, e: Element): Result<seq<SpanKind>, RenderError>
  {
    match e.kind
    case Header =>
      var level := JavaInt.ParseInt(e.Attribute("level"));
      if level.None? then Err(BadLevel(e.Attribute("level")))
      else if 0 <= level.value - 1 < |cfg.headerSizes| then
        Ok([RelativeSize(cfg.headerSizes[level.value - 1]), StyleSpan(Bold)])
      else Err(LevelOutOfRange(level.value))
    case ListItem =>
      if parent.NoParent? then Err(ListItemWithoutParent)
      else if parent.hasParent then Ok([LeadingMargin(cfg.listItemIndent)])
      else Ok([])
    case Emphasis => Ok([StyleSpan(Italic)])
    case DoubleEmphasis => Ok([StyleSpan(Bold)])
    case TripleEmphasis => Ok([StyleSpan(BoldItalic)])
    case BlockCode => Ok([LeadingMargin(cfg.codeBlockIndent), TypefaceSpan("monospace")])
    case CodeSpan => Ok([TypefaceSpan("monospace")])
    case Link => Ok([UrlSpan(e.Attribute("link"))])
    case AutoLink => Ok([UrlSpan(e.Attribute("link"))])
    case BlockQuote =>
      Ok([QuoteSpan(cfg.quoteColor), LeadingMargin(cfg.blockQuoteIndent), StyleSpan(Italic)])
    case Strikethrough => Ok([StrikethroughSpan])
    case _ => Ok([])
  }

  /**
   * The spans setSpan keeps when each kind is set over [0, n), in order: one per
   * kind, or none at all when n is 0, since an empty range is refused.
   */
  function Cover(styles: seq<SpanKind>, n: nat): (r: seq<Span>)
    ensures |r| == if n == 0 then 0 else |styles|
    ensures forall i :: 0 <= i < |r| ==> r[i] == Span(styles[i], 0, n)
  {
    if n == 0 then [] else seq(|styles|, i requires 0 <= i < |styles| => Span(styles[i], 0, n))
  }

  /**
   * One element's output, once its children are rendered: the prefix, the leaf
   * text, the children's concatenation and the trailer, then the element's own
   * spans over all of it.
   */
  function Assemble(cfg: RenderConfig, parent: Parent, e: Element, kids: seq<Rendered>): (r: Result<Rendered, RenderError>)
    ensures AllWellFormed(kids) && r.Ok? ==> WellFormed(r.value)
  {
    match Prefix(cfg, parent, e)
    case Err(err) => Err(err)
    case Ok(prefix) =>
      match OwnStyles(cfg, parent, e)
      case Err(err) => Err(err)
      case Ok(styles) =>
        var body := Append(Rendered(prefix + LeafText(parent, e), []), Concat(kids));
        var text := body.text + Trailer(e);
        Ok(Rendered(text, body.spans + Cover(styles, |text|)))
  }

  /** One more render after a walk: the walk's failure, else this render's failure, else both values. */
  function Then(done: Result<seq<Rendered>, RenderError>, c: Result<Rendered, RenderError>): (r: Result<seq<Rendered>, RenderError>)
    ensures r.Ok? <==> done.Ok? && c.Ok?
    ensures r.Ok? ==> |r.value| == |done.value| + 1
  {
    if done.Err? then done else if c.Err? then Err(c.error) else Ok(done.value + [c.value])
  }

  /**
   * Renders taken in order, as a loop that stops at the first exception: the
   * first failure among `rs`, or else all their values.
   */
  function Collect(rs: seq<Result<Rendered, RenderError>>): (r: Result<seq<Rendered>, RenderError>)
    ensures r.Ok? ==> |r.value| == |rs|
  {
    if |rs| == 0 then Ok([]) else Then(Collect(rs[..|rs| - 1]), rs[|rs| - 1])
  }

  /** Each child of `e` rendered under `ctx`, in order. */
  function ChildRenders(cfg: RenderConfig, ctx: Parent, e: Element): (rs: seq<Result<Rendered, RenderError>>)
    ensures |rs| == |e.children|
    decreases e, 0
  {
    seq(|e.children|, i requires 0 <= i < |e.children| => Render(cfg, ctx, e.children[i]))
  }

  /** recurseElement(e), for an element whose parent is described by `parent`. */
  function Render(cfg: RenderConfig, parent: Parent, e: Element): (r: Result<Rendered, RenderError>)
    ensures r.Ok? ==> WellFormed(r.value)
    decreases e, 1
  {
    var rs := ChildRenders(cfg, ChildContext(parent, e), e);
    var kids := Collect(rs);
    if kids.Err? then Err(kids.error)
    else
      CollectWellFormed(rs);
      Assemble(cfg, parent, e, kids.value)
  }

  /**
   * One turn of recurseElement's loop over the children: child i's render either
   * fails the whole walk with its error or extends the rendered children by one.
   */
  lemma {:induction false} ChildStep(cfg: RenderConfig, ctx: Parent, e: Element, i: nat, done: seq<Rendered>)
    requires i < |e.children| && Collect(ChildRenders(cfg, ctx, e)[..i]) == Ok(done)
    ensures Render(cfg, ctx, e.children[i]).Err? ==>
              Collect(ChildRenders(cfg, ctx, e)) == Err(Render(cfg, ctx, e.children[i]).error)
    ensures Render(cfg, ctx, e.children[i]).Ok? ==>
              Collect(ChildRenders(cfg, ctx, e)[..i + 1]) == Ok(done + [Render(cfg, ctx, e.children[i]).value])
  {
    var rs := ChildRenders(cfg, ctx, e);
    assert rs[i] == Render(cfg, ctx, e.children[i]);
    if rs[i].Err? {
      CollectAbort(rs, i, done, rs[i].error);
    } else {
      CollectPush(rs, i, done, rs[i].value);
    }
  }

  /** Each top-level element rendered without a parent, in order. */
  function TopRenders(cfg: RenderConfig, elements: seq<Element>): (rs: seq<Result<Rendered, RenderError>>)
    ensures |rs| == |elements|
  {
    seq(|elements|, i requires 0 <= i < |elements| => Render(cfg, NoParent, elements[i]))
  }

  /** One turn of markdownToSpannable's loop, in the same way as ChildStep. */
  lemma {:induction false} TopStep(cfg: RenderConfig, elements: seq<Element>, i: nat, done: seq<Rendered>)
    requires i < |elements| && Collect(TopRenders(cfg, elements)[..i]) == Ok(done)
    ensures Render(cfg, NoParent, elements[i]).Err? ==>
              Collect(TopRenders(cfg, elements)) == Err(Render(cfg, NoParent, elements[i]).error)
    ensures Render(cfg, NoParent, elements[i]).Ok? ==>
              Collect(TopRenders(cfg, elements)[..i + 1]) == Ok(done + [Render(cfg, NoParent, elements[i]).value])
  {
    var rs := TopRenders(cfg, elements);
    assert rs[i] == Render(cfg, NoParent, elements[i]);
    if rs[i].Err? {
      CollectAbort(rs, i, done, rs[i].error);
    } else {
      CollectPush(rs, i, done, rs[i].value);
    }
  }

  /** markdownToSpannable, after parsing: the top-level renderings concatenated. */
  function RenderDocument(cfg: RenderConfig, doc: Document): (r: Result<Rendered, RenderError>)
    ensures r.Ok? ==> WellFormed(r.value)
  {
    var rs := TopRenders(cfg, doc.elements);
    var parts := Collect(rs);
    if parts.Err? then Err(parts.error)
    else
      CollectWellFormed(rs);
      Ok(Concat(parts.value))
  }

  /** The walk succeeds exactly when every render does, and then holds their values in order. */
  lemma {:induction false} CollectElementwise(rs: seq<Result<Rendered, RenderError>>)
    ensures Collect(rs).Ok? <==> forall j :: 0 <= j < |rs| ==> rs[j].Ok?
    ensures Collect(rs).Ok? ==> forall j :: 0 <= j < |rs| ==> rs[j] == Ok(Collect(rs).value[j])
    decreases |rs|
  {
    if |rs| > 0 {
      var front := rs[..|rs| - 1];
      CollectElementwise(front);
      var r := Collect(rs);
      if r.Ok? {
        assert r.value == Collect(front).value + [rs[|rs| - 1].value];
        forall j | 0 <= j < |rs|
          ensures rs[j] == Ok(r.value[j])
        {
          if j < |rs| - 1 {
            assert rs[j] == front[j];
          }
        }
      } else if Collect(front).Ok? {
        assert rs[|rs| - 1].Err?;
      } else {
        var j :| 0 <= j < |front| && front[j].Err?;
        assert rs[j].Err?;
      }
    }
  }

  /** Renders that are all well formed where they succeed collect into well-formed parts. */
  lemma {:induction false} CollectWellFormed(rs: seq<Result<Rendered, RenderError>>)
    requires forall j :: 0 <= j < |rs| && rs[j].Ok? ==> WellFormed(rs[j].value)
    ensures Collect(rs).Ok? ==> AllWellFormed(Collect(rs).value)
  {
    CollectElementwise(rs);
  }

  /** The walk over the whole sequence, seen as its longest prefix. */
  lemma {:induction false} CollectWhole(rs: seq<Result<Rendered, RenderError>>)
    ensures Collect(rs[..|rs|]) == Collect(rs)
  {
    assert rs[..|rs|] == rs;
  }

  /** The walk over a prefix, one render longer. */
  lemma {:induction false} CollectStep(rs: seq<Result<Rendered, RenderError>>, k: nat)
    requires k < |rs|
    ensures Collect(rs[..k + 1]) == Then(Collect(rs[..k]), rs[k])
  {
    assert rs[..k + 1][..k] == rs[..k];
  }

  /** A loop step that succeeds: the walk so far grows by the new render. */
  lemma {:induction false} CollectPush(rs: seq<Result<Rendered, RenderError>>, k: nat, done: seq<Rendered>, c: Rendered)
    requires k < |rs| && Collect(rs[..k]) == Ok(done) && rs[k] == Ok(c)
    ensures Collect(rs[..k + 1]) == Ok(done + [c])
  {
    CollectStep(rs, k);
  }

  /** A loop step that fails: the whole walk fails with that render's error. */
  lemma {:induction false} CollectAbort(rs: seq<Result<Rendered, RenderError>>, k: nat, done: seq<Rendered>, err: RenderError)
    requires k < |rs| && Collect(rs[..k]) == Ok(done) && rs[k] == Err(err)
    ensures Collect(rs) == Err(err)
  {
    CollectStep(rs, k);
    CollectFailureSticks(rs, k + 1);
  }

  /** Once a prefix of the walk fails, the whole walk fails with that error. */
  lemma {:induction false} CollectFailureSticks(rs: seq<Result<Rendered, RenderError>>, k: nat)
    requires k <= |rs| && Collect(rs[..k]).Err?
    ensures Collect(rs) == Collect(rs[..k])
    decreases |rs| - k
  {
    if k < |rs| {
      CollectStep(rs, k);
      CollectFailureSticks(rs, k + 1);
    } else {
      assert rs[..k] == rs;
    }
  }

  /** A failing walk fails with the error of its first failing render. */
  lemma {:induction false} CollectFirstFailure(rs: seq<Result<Rendered, RenderError>>)
    requires Collect(rs).Err?
    ensures exists j :: 0 <= j < |rs| && rs[j] == Err(Collect(rs).error) && forall i :: 0 <= i < j ==> rs[i].Ok?
    decreases |rs|
  {
    var front := rs[..|rs| - 1];
    if Collect(front).Err? {
      CollectFirstFailure(front);
      var j :| 0 <= j < |front| && front[j] == Err(Collect(front).error) && forall i :: 0 <= i < j ==> front[i].Ok?;
      assert rs[j] == front[j];
      assert forall i :: 0 <= i < j ==> rs[i] == front[i];
    } else {
      CollectElementwise(front);
      assert forall i :: 0 <= i < |rs| - 1 ==> rs[i] == front[i];
    }
  }

  /** An element renders by assembling its rendered children, unless one of them fails. */
  lemma {:induction false} RenderUnfold(cfg: RenderConfig, parent: Parent, e: Element)
    ensures var kids := Collect(ChildRenders(cfg, ChildContext(parent, e), e));
            && (kids.Err? ==> Render(cfg, parent, e) == Err(kids.error))
            && (kids.Ok? ==> Render(cfg, parent, e) == Assemble(cfg, parent, e, kids.value))
  {
  }

  /** With its prefix and its spans computed, an element's output is laid out as `Assemble` says. */
  lemma {:induction false} AssembleOk(cfg: RenderConfig, parent: Parent, e: Element, kids: seq<Rendered>,
                                      text: string, spans: seq<Span>)
    requires Prefix(cfg, parent, e).Ok? && OwnStyles(cfg, parent, e).Ok?
    requires var body := Append(Rendered(Prefix(cfg, parent, e).value + LeafText(parent, e), []), Concat(kids));
             text == body.text + Trailer(e) && spans == body.spans + Cover(OwnStyles(cfg, parent, e).value, |text|)
    ensures Assemble(cfg, parent, e, kids) == Ok(Rendered(text, spans))
  {
  }

  lemma {:induction false} PrefixFails(cfg: RenderConfig, parent: Parent, e: Element, kids: seq<Rendered>)
    requires Prefix(cfg, parent, e).Err?
    ensures Assemble(cfg, parent, e, kids) == Err(Prefix(cfg, parent, e).error)
  {
  }

  lemma {:induction false} StylesFail(cfg: RenderConfig, parent: Parent, e: Element, kids: seq<Rendered>)
    requires Prefix(cfg, parent, e).Ok? && OwnStyles(cfg, parent, e).Err?
    ensures Assemble(cfg, parent, e, kids) == Err(OwnStyles(cfg, parent, e).error)
  {
  }
}
