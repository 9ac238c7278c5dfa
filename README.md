# Bypass renderer for Android, in Dafny

Bypass turns Markdown into styled Android text. A native parser builds a
`Document`, which is a tree of `Element`s, and the Java class `Bypass` walks
that tree. The walk is `markdownToSpannable` / `recurseElement`. For each
element it builds a `SpannableStringBuilder` holding, in this order:

- a variant-specific prefix: a bullet, a newline or the link text;
- the element's own text; for a childless element with a parent that is not a
  code block, its newlines are turned into spaces;
- the concatenated renderings of its children;
- a newline, for block elements other than list items.

It then attaches the element's own spans (sizes, styles, margins, links) over
the whole builder. `Options` carries the configuration: header sizes, the
bullet, the quote colour and three indents. Each setter returns the same
object, so calls can be chained.

The project is organised as follows:

- `wrappers.dfy` (`Wrappers`): `Option` stands for a Java value that may be null.
  `Result` stands for a call that may throw.
- `java_int.dfy` (`JavaInt`) covers two pieces of Java semantics:
  - `Integer.parseInt` in radix 10, with its 32-bit range;
  - the narrowing cast `(int)` of a floating-point value.
- `spannable.dfy` (`Spannable`) holds the styled-text values and the builder class `SpanBuilder`:
  - a `Rendered` is a text and its spans;
  - `Append` is `SpannableStringBuilder.append` of spanned text;
  - `Concat` is `TextUtils.concat`.
- `rendering.dfy` (`Rendering`) states the walk as functions:
  - the element tree;
  - the parent context an element sees;
  - how the own text reflows (`Reflows`, `LeafText`) and the closing newline (`Trailer`);
  - the two switches of `recurseElement`, as `Prefix` and `OwnStyles`;
  - `Render`, `ChildRenders`, `TopRenders` and `RenderDocument`;
  - `Collect`, the loop that stops at the first exception, with its lemmas.
- `bypass.dfy` (`Bypass`) holds the classes `Options` and `Bypass`:
  - their fields, constructors and setters;
  - `recurseElement` and `markdownToSpannable` as imperative methods over arrays and a `SpanBuilder`;
  - each method is proved equal to the specification function in `Rendering`.
- `rendering_facts.dfy` (`RenderingFacts`) proves these properties of the walk:
  - layout;
  - where the children's text and spans land;
  - leaf reflow, prefixes and trailing newlines;
  - the exact spans of each variant, and its error cases;
  - how a document's rendering is composed from its top-level elements.
- `scenarios.dfy` (`Scenarios`) holds worked cases:
  - a level-2 header;
  - reflowed and kept leaf text;
  - an empty emphasis, whose span is refused;
  - a rejected set of header sizes;
  - a null bullet.

Three behaviours of the code are easy to miss:

- A `LINK` element without a `link` attribute gets `new URLSpan(null)` (line
  148). The model gives it `UrlSpan(None)` and does not fail.
- A header's spans are set after its trailing newline (lines 114-124). So for
  `## Hi` they cover all three characters of `"Hi\n"`, the trailing newline included.
  `Scenarios.HeaderExample` proves the exact output.
- Spans are set with `SPAN_EXCLUSIVE_EXCLUSIVE` (line 164). Android refuses such
  a span over an empty range and keeps nothing. So an element whose output is
  empty, such as an empty emphasis, gets none of its own spans.
  `Scenarios.EmptyEmphasisExample` proves this case.

Exceptions are modelled as `Err` results, in the order the Java code would
throw them:

1. A child's exception comes first, because children are rendered first.
2. Then `append(null)` of a missing bullet or autolink: `MissingBullet` or `MissingLink`.
3. Then:
   - `Integer.parseInt` failing on the header level: `BadLevel`;
   - the header-size array index out of range: `LevelOutOfRange`;
   - a list item with no parent, at `getParent().getParent()`: `ListItemWithoutParent`.

## Model

Source paths are relative to the repository root.

| member | source | states |
|---|---|---|
| JavaInt.ParseInt | platform/android/library/src/in/uncod/android/bypass/Bypass.java:120-121 | A parsed level is a 32-bit int. A null or empty string never parses. A negative result needs a leading '-'. |
| JavaInt.ParseIntToString | platform/android/library/src/in/uncod/android/bypass/Bypass.java:121 | Every 32-bit int's decimal form parses back to the same int. |
| JavaInt.ParseIntRejectsNonDigit | platform/android/library/src/in/uncod/android/bypass/Bypass.java:121 | A non-digit after the optional sign makes the parse fail, which is the NumberFormatException. |
| JavaInt.FloatToInt | platform/android/library/src/in/uncod/android/bypass/Bypass.java:48-58 | `(int)` of a float: it rounds toward zero to within one, and saturates at Integer.MIN_VALUE and MAX_VALUE. |
| Rendering.FoldNewlines | platform/android/library/src/in/uncod/android/bypass/Bypass.java:90 | `replace('\n', ' ')` keeps the length, changes exactly the newlines to spaces, and leaves no newline. |
| Rendering.Assemble | platform/android/library/src/in/uncod/android/bypass/Bypass.java:84-160 | Assembling well-formed children gives well-formed output: every span is non-empty and lies inside the text. |
| Rendering.Then | platform/android/library/src/in/uncod/android/bypass/Bypass.java:65-66 | One more step of a walk succeeds exactly when the walk so far and the new render both do, and then adds exactly one value. |
| Rendering.Collect | platform/android/library/src/in/uncod/android/bypass/Bypass.java:63-66 | A successful walk holds one value per render. |
| Rendering.ChildRenders | platform/android/library/src/in/uncod/android/bypass/Bypass.java:77-80 | There is one render per child. |
| Rendering.Render | platform/android/library/src/in/uncod/android/bypass/Bypass.java:74-161 | Span bounds: every span of a successful render has 0 <= start < end <= length, so none is empty. |
| Rendering.TopRenders | platform/android/library/src/in/uncod/android/bypass/Bypass.java:63-66 | There is one render per top-level element. |
| Rendering.RenderDocument | platform/android/library/src/in/uncod/android/bypass/Bypass.java:61-70 | A successfully rendered document is well-formed. |
| Rendering.ChildStep | platform/android/library/src/in/uncod/android/bypass/Bypass.java:78-79 | One turn of the children loop: a failing child fails the whole walk with its error; a succeeding one extends the walk by exactly its rendering. |
| Rendering.TopStep | platform/android/library/src/in/uncod/android/bypass/Bypass.java:64-65 | One turn of the top-level loop, in the same way. |
| Rendering.CollectElementwise | platform/android/library/src/in/uncod/android/bypass/Bypass.java:63-66 | A walk succeeds exactly when every render does, and then value j is render j. |
| Rendering.CollectWellFormed | platform/android/library/src/in/uncod/android/bypass/Bypass.java:63-66 | Renders that are well-formed where they succeed walk into well-formed values. |
| Rendering.CollectPush | platform/android/library/src/in/uncod/android/bypass/Bypass.java:64-65 | A succeeding step grows the walk so far by that value. |
| Rendering.CollectAbort | platform/android/library/src/in/uncod/android/bypass/Bypass.java:64-65 | A failing step after a successful prefix makes the whole walk fail with that error, since the Java exception ends the loop. |
| Rendering.CollectFailureSticks | platform/android/library/src/in/uncod/android/bypass/Bypass.java:64-65 | Once a prefix of the walk fails, the whole walk fails with the same error. |
| Rendering.CollectFirstFailure | platform/android/library/src/in/uncod/android/bypass/Bypass.java:63-66 | A failing walk fails with the error of some render j, and every render before j succeeded. |
| Spannable.ShiftShift | platform/android/library/src/in/uncod/android/bypass/Bypass.java:112 | Moving spans by d and then by e is moving them by d + e, as when a child's spans are moved into its parent and then into the grandparent. |
| Spannable.ShiftDistributes | platform/android/library/src/in/uncod/android/bypass/Bypass.java:112 | Moving two runs of spans together is moving each run by the same offset. |
| Spannable.Append | platform/android/library/src/in/uncod/android/bypass/Bypass.java:111-112 | Appending keeps well-formedness. Text lengths add, and span counts add. |
| Spannable.Concat | platform/android/library/src/in/uncod/android/bypass/Bypass.java:82 | The concatenation of well-formed parts is well-formed. |
| Spannable.ConcatSplit | platform/android/library/src/in/uncod/android/bypass/Bypass.java:82 | Concatenating xs + ys is appending the concatenation of ys to that of xs. |
| Spannable.AppendAssociative | platform/android/library/src/in/uncod/android/bypass/Bypass.java:111-112 | Appending is associative. |
| Spannable.ConcatPlacement | platform/android/library/src/in/uncod/android/bypass/Bypass.java:82 | Part j's text is found right after the earlier parts' text. Its spans follow theirs, moved by that offset. |
| Spannable.PartEmbedded | platform/android/library/src/in/uncod/android/bypass/Bypass.java:111-112 | If a concatenation is placed inside a larger text, part j is at the concatenation's offset plus the earlier parts' length. |
| Spannable.SpanBuilder.constructor | platform/android/library/src/in/uncod/android/bypass/Bypass.java:84 | A new builder is empty and well-formed. |
| Spannable.SpanBuilder.AppendText | platform/android/library/src/in/uncod/android/bypass/Bypass.java:97-115 | Appending plain text extends the text and leaves the spans alone. |
| Spannable.SpanBuilder.AppendStyled | platform/android/library/src/in/uncod/android/bypass/Bypass.java:112 | Appending spanned text makes the builder's contents `Append(old contents, r)`. |
| Spannable.SpanBuilder.SetSpan | platform/android/library/src/in/uncod/android/bypass/Bypass.java:164 | A span over a non-empty range is recorded after all earlier ones. An empty range is refused and nothing is recorded. The text is unchanged. |
| Bypass.Options.constructor | platform/android/library/src/in/uncod/android/bypass/Bypass.java:184-204 | Defaults: header sizes [1.5, 1.4, 1.3, 1.2, 1.1, 1.0], bullet U+2022, quote colour 0xff0000ff, and all three indents at 10 dip. |
| Bypass.Options.SetHeaderSizes | platform/android/library/src/in/uncod/android/bypass/Bypass.java:206-217 | Null sizes and a count other than 6 are rejected, with the sizes left unchanged. Otherwise the new sizes are stored and the same object is returned. Only the header sizes can change. |
| Bypass.Options.SetListItem | platform/android/library/src/in/uncod/android/bypass/Bypass.java:219-222 | Stores the bullet, even a null one, returns the same object and changes no other field. |
| Bypass.Options.SetListItemIndentSize | platform/android/library/src/in/uncod/android/bypass/Bypass.java:224-228 | Stores the list-item unit and size, returns the same object and changes no other field. |
| Bypass.Options.SetBlockQuoteColor | platform/android/library/src/in/uncod/android/bypass/Bypass.java:230-233 | Stores the quote colour, returns the same object and changes no other field. |
| Bypass.Options.SetBlockQuoteIndentSize | platform/android/library/src/in/uncod/android/bypass/Bypass.java:235-239 | Stores the block-quote unit and size, returns the same object and changes no other field. |
| Bypass.Options.SetCodeBlockIndentSize | platform/android/library/src/in/uncod/android/bypass/Bypass.java:241-245 | Stores the code-block unit and size, returns the same object and changes no other field. |
| Bypass.ResolveIndent | platform/android/library/src/in/uncod/android/bypass/Bypass.java:48-58 | A converted indent, narrowed to int, is always a 32-bit value. |
| Bypass.Bypass.Legacy | platform/android/library/src/in/uncod/android/bypass/Bypass.java:33-39 | The deprecated constructor has fresh default options and indents 20, 10 and 10. |
| Bypass.Bypass.WithContext | platform/android/library/src/in/uncod/android/bypass/Bypass.java:41-43 | Fresh default options, with each indent resolved from 10 dip. |
| Bypass.Bypass.constructor | platform/android/library/src/in/uncod/android/bypass/Bypass.java:45-59 | Given valid options, shares them and resolves each indent from that option's unit and size. |
| Bypass.Bypass.SetSpan | platform/android/library/src/in/uncod/android/bypass/Bypass.java:163-165 | Adds one span over the builder's whole current text, or none if that text is empty, and changes nothing else. |
| Bypass.Bypass.Config | platform/android/library/src/in/uncod/android/bypass/Bypass.java:104-151 | The configuration the walk reads from the shared options. With valid options it has exactly six header sizes. |
| Bypass.Bypass.AppendPrefix | platform/android/library/src/in/uncod/android/bypass/Bypass.java:93-109 | The first switch puts exactly `Prefix` into the empty builder, or reports its error. |
| Bypass.Bypass.AttachHeaderSpans | platform/android/library/src/in/uncod/android/bypass/Bypass.java:119-124 | A header gets the size of its level and bold over the whole text. A level that does not parse gives BadLevel, and one out of range gives LevelOutOfRange, with no span added. |
| Bypass.Bypass.AttachSpans | platform/android/library/src/in/uncod/android/bypass/Bypass.java:118-158 | The second switch adds exactly the `OwnStyles` spans over the whole text, or reports its error and adds no span. The text is unchanged. |
| Bypass.Bypass.AttachFixedSpans | platform/android/library/src/in/uncod/android/bypass/Bypass.java:130-157 | Every variant other than header and list item adds exactly its `OwnStyles` spans over the whole text, and never fails. |
| Bypass.Bypass.RecurseChildren | platform/android/library/src/in/uncod/android/bypass/Bypass.java:77-80 | The children loop fills the array with the rendered children and returns exactly `Collect(ChildRenders(...))`, stopping at the first failure. |
| Bypass.Bypass.RecurseChild | platform/android/library/src/in/uncod/android/bypass/Bypass.java:79 | Rendering child i after a successful prefix of the loop either fails the whole walk with its error or stores its rendering in `spans[i]`, so that `spans[..i + 1]` is the rendered prefix one longer. |
| Bypass.Bypass.RecurseElement | platform/android/library/src/in/uncod/android/bypass/Bypass.java:74-161 | The builder-based method returns exactly `Render`, errors included. |
| Bypass.Bypass.LayOut | platform/android/library/src/in/uncod/android/bypass/Bypass.java:82-160 | Once the children are rendered, the builder code returns exactly `Assemble` of them, errors included. |
| Bypass.Bypass.MarkdownToSpannable | platform/android/library/src/in/uncod/android/bypass/Bypass.java:61-70 | The loop over top-level elements and the final concat return exactly `RenderDocument`. |
| RenderingFacts.ContextDepth | platform/android/library/src/in/uncod/android/bypass/Bypass.java:87-126 | Passed down the walk (`getParent()` at lines 87-96), the context gives an element a parent exactly when it has an ancestor, of its nearest ancestor's variant. `getParent().getParent()` (line 126) is non-null exactly when there are two ancestors or more. |
| RenderingFacts.ChildrenElementwise | platform/android/library/src/in/uncod/android/bypass/Bypass.java:77-80 | All children render exactly when each does. Then rendering j is child j's render. |
| RenderingFacts.ChildrenFirstFailure | platform/android/library/src/in/uncod/android/bypass/Bypass.java:77-80 | A failing walk fails with the error of some child j, and every child before j succeeded. |
| RenderingFacts.AssembleShape | platform/android/library/src/in/uncod/android/bypass/Bypass.java:84-158 | Layout of one element given its rendered children: text is prefix ++ leaf ++ children ++ trailer, the children's spans are moved past prefix and leaf, then come the own spans over the whole text. It succeeds exactly when prefix and spans do, and the prefix error comes first. |
| RenderingFacts.Layout | platform/android/library/src/in/uncod/android/bypass/Bypass.java:110-116 | The appended text is prefix ++ leaf ++ children ++ trailer, and each child span is moved by the length of prefix and leaf. |
| RenderingFacts.CoverAfter | platform/android/library/src/in/uncod/android/bypass/Bypass.java:163-165 | Spans set after the existing ones leave those in place. Over a non-empty text they add exactly one span per kind over the whole text, and none over an empty one. |
| RenderingFacts.RenderShape | platform/android/library/src/in/uncod/android/bypass/Bypass.java:84-158 | Layout: text is prefix ++ leaf ++ children ++ trailer, and the children's spans are moved past prefix and leaf. Then come the own spans, over the whole text. Success needs children, prefix and own spans all to succeed, and the errors come in that order. |
| RenderingFacts.RenderText | platform/android/library/src/in/uncod/android/bypass/Bypass.java:86-116 | A rendered element's text is its prefix, its leaf text, its children's text and its trailer, in that order. |
| RenderingFacts.ChildrenEmbedded | platform/android/library/src/in/uncod/android/bypass/Bypass.java:111-112 | The children's concatenation sits right after the prefix and leaf text, and its spans come first. |
| RenderingFacts.ChildOfRendered | platform/android/library/src/in/uncod/android/bypass/Bypass.java:78-79 | In a rendered element, every child renders in the element's context, as entry j of the rendered children. |
| RenderingFacts.LeafRender | platform/android/library/src/in/uncod/android/bypass/Bypass.java:86-158 | A childless element renders to prefix ++ leaf ++ trailer, with only its own spans. |
| RenderingFacts.TextLeafRender | platform/android/library/src/in/uncod/android/bypass/Bypass.java:86-112 | A childless inline text element renders to its leaf text alone, with no span. |
| RenderingFacts.LeafFolding | platform/android/library/src/in/uncod/android/bypass/Bypass.java:86-91 | The leaf text follows the prefix. If reflowed, its newlines become spaces, its length is kept and no newline is left. Otherwise it is verbatim. |
| RenderingFacts.LeafTextFacts | platform/android/library/src/in/uncod/android/bypass/Bypass.java:86-91 | `LeafText`, the own text after reflow, keeps the element's length. When `Reflows` holds (no children, and a parent that is not a code block), each newline becomes a space, other characters are kept and no newline is left. Otherwise it is the text verbatim. |
| RenderingFacts.PrefixRule | platform/android/library/src/in/uncod/android/bypass/Bypass.java:93-111 | The output starts with a newline for a list inside a list item and for a line break. It starts with the bullet for a list item and with the link for an autolink. Otherwise it starts with the leaf text. |
| RenderingFacts.PrefixLayout | platform/android/library/src/in/uncod/android/bypass/Bypass.java:93-110 | On any text laid out as prefix ++ leaf ++ rest, the same four prefix cases hold. |
| RenderingFacts.PrefixCases | platform/android/library/src/in/uncod/android/bypass/Bypass.java:93-109 | The first switch's prefix: a newline for a list in a list item and for a line break, the bullet for a list item, the link for an autolink, and nothing otherwise. |
| RenderingFacts.TrailingNewline | platform/android/library/src/in/uncod/android/bypass/Bypass.java:114-116 | `Trailer`: block elements other than list items end in '\n'. Other output, list items included, is prefix ++ leaf ++ children with nothing after. |
| RenderingFacts.RenderStyles | platform/android/library/src/in/uncod/android/bypass/Bypass.java:84-158 | Given its children, an element renders exactly when its prefix and its spans succeed, with the prefix error first. It then ends with exactly its own spans, or with none of them when its text is empty. |
| RenderingFacts.HeaderSpans | platform/android/library/src/in/uncod/android/bypass/Bypass.java:119-124 | A header renders exactly when its level parses to 1..number of sizes. It then gets exactly RelativeSize(sizes[L-1]) and Bold, in that order. A bad level gives BadLevel, and one out of range gives LevelOutOfRange. |
| RenderingFacts.HeaderStyles | platform/android/library/src/in/uncod/android/bypass/Bypass.java:118-124 | A header has no prefix. Its styles succeed exactly when the level parses to 1..number of sizes, and are then RelativeSize(sizes[L-1]) and Bold. Otherwise they fail with BadLevel or LevelOutOfRange. |
| RenderingFacts.HeaderLevelRange | platform/android/library/src/in/uncod/android/bypass/Bypass.java:119-122 | With six header sizes, a header renders exactly when its level parses to 1..6. Any other parsed level fails with LevelOutOfRange. |
| RenderingFacts.BlockQuoteSpans | platform/android/library/src/in/uncod/android/bypass/Bypass.java:150-154 | A block quote gets exactly three spans: quote colour, block-quote margin and italic. |
| RenderingFacts.BlockCodeSpans | platform/android/library/src/in/uncod/android/bypass/Bypass.java:139-142 | A code block gets exactly two spans: code-block margin and monospace. |
| RenderingFacts.ListItemSpans | platform/android/library/src/in/uncod/android/bypass/Bypass.java:125-129 | A list item renders exactly when there is a bullet and a parent, and the bullet error wins. It gets the margin exactly when the parent has a parent, and no other span. |
| RenderingFacts.InlineSpans | platform/android/library/src/in/uncod/android/bypass/Bypass.java:130-157 | Each of the six inline variants gets exactly one span: italic, bold, bold-italic, monospace, its URL, or strikethrough. Over an empty output it gets none. |
| RenderingFacts.InlineStyles | platform/android/library/src/in/uncod/android/bypass/Bypass.java:130-157 | The six inline variants have no prefix and exactly one style each: italic, bold, bold-italic, monospace, its URL, or strikethrough. |
| RenderingFacts.AutoLinkSpans | platform/android/library/src/in/uncod/android/bypass/Bypass.java:146-149 | An autolink renders exactly when it has a link, and otherwise fails with MissingLink. It gets exactly the URL span of that link. |
| RenderingFacts.UnstyledVariants | platform/android/library/src/in/uncod/android/bypass/Bypass.java:118-158 | Paragraphs, lists, text, line breaks and unknown variants always succeed, given their children. They add no span. |
| RenderingFacts.NoOwnStyles | platform/android/library/src/in/uncod/android/bypass/Bypass.java:118-158 | Paragraphs, lists, text, line breaks and unknown variants have a prefix and no style of their own. |
| RenderingFacts.TopLevelElementwise | platform/android/library/src/in/uncod/android/bypass/Bypass.java:64-67 | All top-level elements render exactly when each does without a parent. Then entry j is element j's render. |
| RenderingFacts.DocumentFirstFailure | platform/android/library/src/in/uncod/android/bypass/Bypass.java:63-66 | A failing document fails with the error of some top-level element j, and every element before j rendered. |
| RenderingFacts.Join | platform/android/library/src/in/uncod/android/bypass/Bypass.java:64-67 | Two walks joined succeed exactly when both do. |
| RenderingFacts.ThenAfterJoin | platform/android/library/src/in/uncod/android/bypass/Bypass.java:64-67 | Taking a step after joining two walks is joining with the extended second walk. |
| RenderingFacts.CollectSplit | platform/android/library/src/in/uncod/android/bypass/Bypass.java:63-66 | Walking over xs + ys is walking over xs, then over ys: the first failure wins, else the values are in order. |
| RenderingFacts.TopRendersSplit | platform/android/library/src/in/uncod/android/bypass/Bypass.java:63-66 | Top-level elements render independently: the renders of xs + ys are those of xs followed by those of ys. |
| RenderingFacts.DocumentAppend | platform/android/library/src/in/uncod/android/bypass/Bypass.java:61-70 | A document of xs + ys renders as the rendering of xs followed by that of ys. The first failure wins. |
| RenderingFacts.DocumentSingle | platform/android/library/src/in/uncod/android/bypass/Bypass.java:61-70 | A one-element document renders as that element does with no parent. |
| RenderingFacts.DocumentPlacement | platform/android/library/src/in/uncod/android/bypass/Bypass.java:64-69 | The document is the concatenation of the top-level renders. Element j's text and spans sit right after the earlier elements', and the whole is well-formed. |
| Scenarios.HeaderExample | platform/android/library/src/in/uncod/android/bypass/Bypass.java:114-124 | `## Hi` renders to "Hi\n" with RelativeSize(1.4) then Bold, both over [0, 3). |
| Scenarios.HeaderChildExample | platform/android/library/src/in/uncod/android/bypass/Bypass.java:77-80 | The header's text child renders, under the header, to "Hi" with no span. |
| Scenarios.HeaderStylesExample | platform/android/library/src/in/uncod/android/bypass/Bypass.java:119-124 | With the default sizes, a level-2 header's own spans are RelativeSize(1.4) then Bold. |
| Scenarios.HeaderAssembled | platform/android/library/src/in/uncod/android/bypass/Bypass.java:110-124 | Laid out around "Hi", the header is "Hi\n" with both spans over [0, 3). |
| Scenarios.HeaderDocumentExample | platform/android/library/src/in/uncod/android/bypass/Bypass.java:61-70 | A document holding only that header renders the same. |
| Scenarios.FoldExample | platform/android/library/src/in/uncod/android/bypass/Bypass.java:86-91 | "a\nb" becomes "a b" inside a paragraph. |
| Scenarios.FoldedText | platform/android/library/src/in/uncod/android/bypass/Bypass.java:86-91 | Under a paragraph, the leaf text of "a\nb" is "a b". |
| Scenarios.KeepExample | platform/android/library/src/in/uncod/android/bypass/Bypass.java:86-91 | "a\nb" stays "a\nb" inside a code block. |
| Scenarios.EmptyEmphasisExample | platform/android/library/src/in/uncod/android/bypass/Bypass.java:163-165 | An empty emphasis under a paragraph renders to the empty text with no span, since its italic span would be empty. |
| Scenarios.RenderHeaderDocument | platform/android/library/src/in/uncod/android/bypass/Bypass.java:33-39 | The deprecated renderer with default options renders the header document to that output. |
| Scenarios.RejectFiveHeaderSizes | platform/android/library/src/in/uncod/android/bypass/Bypass.java:210-212 | Five header sizes are rejected, and the six defaults stay in place. |
| Scenarios.NullBulletFails | platform/android/library/src/in/uncod/android/bypass/Bypass.java:103-105 | After `setListItem(null)`, rendering a list item fails with MissingBullet. |

## Left out

- `processMarkdown`: the native parser behind JNI (Bypass.java:72). The project models the walk from a parsed `Document` onwards, and `MarkdownToSpannable` takes the parsed document as its argument. The C parser header is not part of this model.
- `Element.java` is not part of this model. `isBlockElement()` is the input field `Element.block`. The parent back-reference is the context value `Parent`, passed down the walk. It records only what the code asks of a parent: whether it exists, its type, and whether it has a parent. `Element.getAttribute` is the lookup `Attribute`, with `None` for Java's null on a missing key. How a child's context is formed from its parent's is the definition `ChildContext`.
- The Android `Context`, `TypedValue.applyDimension` and display metrics: the conversion is a function parameter of the constructors. Unit conversion itself is not modelled.
- Floating point: header sizes and indent sizes are `real`s and are never computed on. NaN and infinities are not modelled, so `FloatToInt` has no NaN case.
- Span rendering on screen. A span is its kind and range. Of the `SPAN_EXCLUSIVE_EXCLUSIVE` flag (Bypass.java:164) only the refusal of empty ranges is modelled. Its other effect concerns text inserted at a span's ends. The builders here are only ever appended to, and an exclusive span does not grow over text appended at its end. The model's spans never grow either.
- Text is a sequence of Unicode code points. Android's `length()` and span offsets count UTF-16 code units. So lengths and span ends differ for characters outside the Basic Multilingual Plane, which take two units in Java and one here.
- Stack depth: `recurseElement` recurses once per nesting level, and a deep enough tree makes Java throw `StackOverflowError`. The model's recursion is unbounded and has no such failure.
- Bypass.Options: its fields are private in Java and only the setters change them. In the model they stay assignable, and the renderer's constructor and methods require `Valid()` (six header sizes) instead.
- Bypass.Options.SetHeaderSizes: stores a copy of the values, not the caller's array. Later writes by the caller into that array, which Java would see through the alias, are not modelled.
- JavaInt.ParseInt: accepts ASCII digits only. `Integer.parseInt` also takes other Unicode decimal digits.
- Exceptions carry no message. The error values only record which exception would be thrown, and for what.
- Threads: `Bypass` and `Options` are used from one thread only.
- Null arguments to the constructors: in the model `options` is a non-null `Options` and the context is the conversion function. In Java, `new Bypass(context, null)` and a null `context` throw NullPointerException when the indents are resolved (Bypass.java:45-59).
