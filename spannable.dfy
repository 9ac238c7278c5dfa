/**
 * Styled text: a string with typed presentation spans over half-open ranges of it.
 * This is the part of android.text the renderer uses: the span kinds it creates,
 * `TextUtils.concat` on spanned text, and a SpannableStringBuilder that is
 * appended to and marked with spans.
 */
module Spannable {
  import opened Wrappers

  /** Typeface styles of a StyleSpan. */
  datatype Face = Bold | Italic | BoldItalic

  /** The presentation span objects the renderer attaches, by their payload. */
  datatype SpanKind =
    | RelativeSize(proportion: real)   // RelativeSizeSpan
    | StyleSpan(face: Face)             // StyleSpan(Typeface.*)
    | LeadingMargin(indent: int)        // LeadingMarginSpan.Standard
    | TypefaceSpan(family: string)      // TypefaceSpan("monospace")
    | UrlSpan(url: Option<string>)      // URLSpan, whose URL may be null
    | QuoteSpan(color: bv32)            // QuoteSpan(int color)
    | StrikethroughSpan

  /** A span of a given kind over the characters [start, end). */
  datatype Span = Span(kind: SpanKind, start: nat, end: nat) {
    function ShiftedBy(d: nat): (s: Span)
      ensures s.kind == kind && s.end - s.start == end - start && s.start == start + d
    {
      Span(kind, start + d, end + d)
    }
  }

  /** Styled text, with its spans in the order they were attached. */
  datatype Rendered = Rendered(text: string, spans: seq<Span>)

  const Empty := Rendered("", [])

  /** A span tracked by the builder: not empty, and inside a text of length n. */
  predicate Within(s: Span, n: nat) { s.start < s.end <= n }

  /** Every span lies inside the text and covers at least one character. */
  predicate WellFormed(r: Rendered)
  {
    forall i :: 0 <= i < |r.spans| ==> Within(r.spans[i], |r.text|)
  }

  predicate AllWellFormed(parts: seq<Rendered>)
  {
    forall i :: 0 <= i < |parts| ==> WellFormed(parts[i])
  }

  /** Spans moved right by `d` characters, as when their text is appended after `d` others. */
  function Shift(spans: seq<Span>, d: nat): (r: seq<Span>)
    ensures |r| == |spans|
    ensures forall i :: 0 <= i < |r| ==> r[i] == spans[i].ShiftedBy(d)
  {
    seq(|spans|, i requires 0 <= i < |spans| => spans[i].ShiftedBy(d))
  }

  /** Appending `b` to the styled text `a`: b's spans keep their place relative to b's text. */
  function Append(a: Rendered, b: Rendered): (r: Rendered)
    ensures WellFormed(a) && WellFormed(b) ==> WellFormed(r)
    ensures |r.text| == |a.text| + |b.text| && |r.spans| == |a.spans| + |b.spans|
  {
    Rendered(a.text + b.text, a.spans + Shift(b.spans, |a.text|))
  }

  /** `TextUtils.concat(parts)`: the parts' texts one after the other, with all their spans. */
  function Concat(parts: seq<Rendered>): (r: Rendered)
    ensures AllWellFormed(parts) ==> WellFormed(r)
    decreases |parts|
  {
    if |parts| == 0 then Empty
    else Append(Concat(parts[..|parts| - 1]), parts[|parts| - 1])
  }

  /** Moving spans twice is moving them once by the sum of the offsets. */
  lemma {:induction false} ShiftShift(spans: seq<Span>, d: nat, e: nat)
    ensures Shift(Shift(spans, d), e) == Shift(spans, d + e)
  {
  }

  lemma {:induction false} AppendEmpty(a: Rendered)
    ensures Append(Empty, a) == a && Append(a, Empty) == a
  {
    assert Shift(a.spans, 0) == a.spans;
  }

  /** Moving two runs of spans is moving each. */
  lemma {:induction false} ShiftDistributes(s: seq<Span>, t: seq<Span>, d: nat)
    ensures Shift(s + t, d) == Shift(s, d) + Shift(t, d)
  {
  }

  /** Appending is associative, so styled text forms a monoid with Empty. */
  lemma {:induction false} AppendAssociative(a: Rendered, b: Rendered, c: Rendered)
    ensures Append(Append(a, b), c) == Append(a, Append(b, c))
  {
    var ab, bc := Append(a, b), Append(b, c);
    AppendSeqAssociative(a.text, b.text, c.text);
    var sb, sc := Shift(b.spans, |a.text|), Shift(c.spans, |b.text| + |a.text|);
    assert |ab.text| == |b.text| + |a.text|;
    assert Append(ab, c).spans == (a.spans + sb) + sc;
    ShiftShift(c.spans, |b.text|, |a.text|);
    ShiftDistributes(b.spans, Shift(c.spans, |b.text|), |a.text|);
    assert Shift(bc.spans, |a.text|) == sb + sc;
    AppendSeqAssociative(a.spans, sb, sc);
  }

  lemma {:induction false} AppendSeqAssociative<T>(x: seq<T>, y: seq<T>, z: seq<T>)
    ensures (x + y) + z == x + (y + z)
  {
  }

  /** Concatenating two runs of parts is appending their concatenations. */
  lemma {:induction false} ConcatSplit(xs: seq<Rendered>, ys: seq<Rendered>)
    ensures Concat(xs + ys) == Append(Concat(xs), Concat(ys))
    decreases |ys|
  {
    if |ys| == 0 {
      assert xs + ys == xs;
      AppendEmpty(Concat(xs));
    } else {
      var ys' := ys[..|ys| - 1];
      var y := ys[|ys| - 1];
      assert (xs + ys)[..|xs + ys| - 1] == xs + ys';
      assert (xs + ys)[|xs + ys| - 1] == y;
      ConcatSplit(xs, ys');
      AppendAssociative(Concat(xs), Concat(ys'), y);
    }
  }

  /** `TextUtils.concat` of one part is that part. */
  lemma {:induction false} ConcatSingle(a: Rendered)
    ensures Concat([a]) == a
  {
    assert [a][..0] == [];
    AppendEmpty(a);
  }

  /**
   * `part` occurs in `r`: its text at offset `off`, and each of its spans, moved
   * right by `off`, at index `base` onwards of r's spans.
   */
  predicate PlacedAt(r: Rendered, part: Rendered, off: nat, base: nat)
  {
    && off + |part.text| <= |r.text|
    && r.text[off..off + |part.text|] == part.text
    && base + |part.spans| <= |r.spans|
    && forall i :: 0 <= i < |part.spans| ==> r.spans[base + i] == part.spans[i].ShiftedBy(off)
  }

  /** Placement composes: a part placed in `m`, which is placed in `r`, is placed in `r`. */
  lemma {:induction false} PlacedTransitive(r: Rendered, m: Rendered, p: Rendered, o1: nat, b1: nat, o2: nat, b2: nat, o: nat, b: nat)
    requires PlacedAt(r, m, o1, b1) && PlacedAt(m, p, o2, b2)
    requires o == o1 + o2 && b == b1 + b2
    ensures PlacedAt(r, p, o, b)
  {
    forall t | 0 <= t < |p.text|
      ensures r.text[o1 + o2 + t] == p.text[t]
    {
      assert r.text[o1..o1 + |m.text|][o2 + t] == m.text[o2 + t];
      assert m.text[o2..o2 + |p.text|][t] == p.text[t];
    }
    assert r.text[o1 + o2..o1 + o2 + |p.text|] == p.text;
    forall i | 0 <= i < |p.spans|
      ensures r.spans[b1 + b2 + i] == p.spans[i].ShiftedBy(o1 + o2)
    {
      assert r.spans[b1 + (b2 + i)] == m.spans[b2 + i].ShiftedBy(o1);
    }
  }

  /** What is appended is placed after the text and the spans it is appended to. */
  lemma {:induction false} AppendPlacesRight(a: Rendered, b: Rendered)
    ensures PlacedAt(Append(a, b), b, |a.text|, |a.spans|)
  {
    var r := Append(a, b);
    assert r.text[|a.text|..|a.text| + |b.text|] == b.text;
  }

  /** What is placed somewhere places its own front part, `a` of `Append(a, b)`, at the same spot. */
  lemma {:induction false} PlacedFront(r: Rendered, a: Rendered, b: Rendered, off: nat, base: nat)
    requires PlacedAt(r, Append(a, b), off, base)
    ensures PlacedAt(r, a, off, base)
  {
    var m := Append(a, b);
    forall t | 0 <= t < |a.text|
      ensures r.text[off + t] == a.text[t]
    {
      assert r.text[off..off + |m.text|][t] == m.text[t];
    }
    assert r.text[off..off + |a.text|] == a.text;
    forall i | 0 <= i < |a.spans|
      ensures r.spans[base + i] == a.spans[i].ShiftedBy(off)
    {
      assert m.spans[i] == a.spans[i];
    }
  }

  /**
   * Part j of a concatenation sits right after the parts before it: its text is
   * found at that offset and each of its spans follows the earlier parts' spans,
   * moved right by that offset.
   */
  lemma {:induction false} ConcatPlacement(parts: seq<Rendered>, j: nat)
    requires j < |parts|
    ensures var before := Concat(parts[..j]);
            PlacedAt(Concat(parts), parts[j], |before.text|, |before.spans|)
  {
    var xs, rest := parts[..j], parts[j + 1..];
    var before, after := Concat(xs), Append(parts[j], Concat(rest));
    assert Concat(parts) == Append(before, after) by {
      assert parts == xs + ([parts[j]] + rest);
      ConcatSplit(xs, [parts[j]] + rest);
      ConcatSplit([parts[j]], rest);
      ConcatSingle(parts[j]);
    }
    AppendPlacesRight(before, after);
    PlacedFront(Concat(parts), parts[j], Concat(rest), |before.text|, |before.spans|);
  }

  /**
   * When a concatenation is placed in `r` at `head`, with its spans first, part j
   * of it is found in r at `head` plus the length of the parts before it, with its
   * spans after theirs.
   */
  lemma {:induction false} PartEmbedded(r: Rendered, head: nat, parts: seq<Rendered>, j: nat, off: nat)
    requires j < |parts| && PlacedAt(r, Concat(parts), head, 0)
    requires off == head + |Concat(parts[..j]).text|
    ensures PlacedAt(r, parts[j], off, |Concat(parts[..j]).spans|)
  {
    var before := Concat(parts[..j]);
    ConcatPlacement(parts, j);
    PlacedTransitive(r, Concat(parts), parts[j], head, 0, |before.text|, |before.spans|,
                     off, |before.spans|);
  }

  /**
   * A SpannableStringBuilder: text that grows at the end, and spans set over
   * ranges of it.
   */
  class SpanBuilder {
    var text: string
    var spans: seq<Span>

    function Current(): Rendered
      reads this
    {
      Rendered(text, spans)
    }

    ghost predicate Valid()
      reads this
    {
      WellFormed(Current())
    }

    constructor ()
      ensures Valid() && text == [] && spans == []
    {
      text, spans := [], [];
    }

    /** `append(CharSequence)` of plain text. */
    method AppendText(s: string)
      requires Valid()
      modifies this
      ensures Valid() && text == old(text) + s && spans == old(spans)
    {
      text := text + s;
    }

    /** `append(CharSequence)` of spanned text: its spans come along, moved by the old length. */
    method AppendStyled(r: Rendered)
      requires Valid() && WellFormed(r)
      modifies this
      ensures Valid() && Current() == Append(old(Current()), r)
    {
      spans := spans + Shift(r.spans, |text|);
      text := text + r.text;
    }

    /**
     * `setSpan(what, start, end, SPAN_EXCLUSIVE_EXCLUSIVE)`: the span is recorded
     * after all earlier ones. An empty range is refused (Android logs it and keeps
     * no span), so every recorded span covers at least one character.
     */
    method SetSpan(what: SpanKind, start: nat, end: nat)
      requires Valid() && start <= end <= |text|
      modifies this
      ensures Valid() && text == old(text)
      ensures spans == old(spans) + (if start == end then [] else [Span(what, start, end)])
    {
      if start < end {
        spans := spans + [Span(what, start, end)];
      }
    }
  }
}
