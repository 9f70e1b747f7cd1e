/** Truncating styled reports at a grapheme boundary, without assuming that shorter always fits. */
module ReportTruncation {
  import opened Prelude

  datatype Span = Span(text: string, style: nat)

  /** Whether rendered spans fit the message and total budgets; rendering itself is not modelled. */
  type Fits = seq<Span> -> bool

  const NOTICE := Span("\n***Report truncated: additional results omitted***", 0)

  function Visible(spans: seq<Span>): string {
    if spans == [] then "" else spans[0].text + Visible(spans[1..])
  }

  /** Grapheme starts of a text of the given length, followed by its end. */
  ghost predicate Boundaries(b: seq<nat>, length: nat) {
    b != [] && b[0] == 0 && b[|b| - 1] == length && Increasing(b)
  }

  /** Whole spans, then part of one, up to `left` characters of text. */
  function Kept(spans: seq<Span>, left: nat): seq<Span> {
    if spans == [] || left == 0 then [] else
      var take := Smaller(left, |spans[0].text|);
      [Span(spans[0].text[..take], spans[0].style)] + Kept(spans[1..], left - take)
  }

  function Truncated(spans: seq<Span>, end: nat): seq<Span> { Kept(spans, end) + [NOTICE] }

  /** What is kept is exactly that much of the visible text. */
  lemma {:induction false} KeptShowsPrefix(spans: seq<Span>, end: nat)
    requires end <= |Visible(spans)|
    ensures Visible(Kept(spans, end)) == Visible(spans)[..end]
  {
    if spans != [] && end > 0 {
      var text, rest := spans[0].text, Visible(spans[1..]);
      var take := Smaller(end, |text|);
      KeptShowsPrefix(spans[1..], end - take);
      assert Kept(spans, end)[1..] == Kept(spans[1..], end - take);
      assert (text + rest)[..end] == text[..take] + rest[..end - take];
    }
  }

  lemma {:induction false} VisibleAppend(a: seq<Span>, b: seq<Span>)
    ensures Visible(a + b) == Visible(a) + Visible(b)
  {
    if a == [] {
      assert a + b == b;
    } else {
      assert (a + b)[1..] == a[1..] + b;
      VisibleAppend(a[1..], b);
      assert a[0].text + (Visible(a[1..]) + Visible(b)) == (a[0].text + Visible(a[1..])) + Visible(b);
    }
  }

  /** A truncated report shows a prefix of the text and then the notice. */
  lemma TruncatedShowsPrefixAndNotice(spans: seq<Span>, end: nat)
    requires end <= |Visible(spans)|
    ensures Visible(Truncated(spans, end)) == Visible(spans)[..end] + NOTICE.text
  {
    KeptShowsPrefix(spans, end);
    VisibleAppend(Kept(spans, end), [NOTICE]);
    assert Visible([NOTICE]) == NOTICE.text by {
      assert [NOTICE][1..] == [];
      assert NOTICE.text + "" == NOTICE.text;
    }
  }

  /** Kept spans keep their styles and their order, and all but the last are whole. */
  lemma {:induction false} KeptKeepsStyles(spans: seq<Span>, end: nat)
    ensures var kept := Kept(spans, end);
            |kept| <= |spans| &&
            (forall i :: 0 <= i < |kept| ==> kept[i].style == spans[i].style && kept[i].text <= spans[i].text) &&
            (forall i :: 0 <= i < |kept| - 1 ==> kept[i] == spans[i])
  {
    if spans != [] && end > 0 {
      KeptKeepsStyles(spans[1..], end - Smaller(end, |spans[0].text|));
    }
  }

  /** Build a prefix span by span. */
  method BuildPrefix(spans: seq<Span>, end: nat) returns (result: seq<Span>)
    ensures result == Truncated(spans, end)
  {
    var left: nat := end;
    result := [];
    for i := 0 to |spans|
      invariant Kept(spans, end) == result + Kept(spans[i..], left)
    {
      if left == 0 {
        break;
      }
      assert spans[i..][1..] == spans[i + 1..];
      var take := Smaller(left, |spans[i].text|);
      var part := [Span(spans[i].text[..take], spans[i].style)];
      ghost var rest := Kept(spans[i + 1..], left - take);
      assert result + (part + rest) == (result + part) + rest;
      result := result + part;
      left := left - take;
    }
    result := result + [NOTICE];
  }

  /**
   * Keep a report that fits; otherwise search for a boundary whose prefix fits with the notice
   * while the next boundary's does not, and fail only if the bare notice does not fit.
   */
  method BoundSpans(spans: seq<Span>, boundaries: seq<nat>, fits: Fits) returns (r: Option<seq<Span>>, kept: nat)
    requires Boundaries(boundaries, |Visible(spans)|)
    ensures fits(spans) ==> r == Some(spans)
    ensures !fits(spans) ==> (r.None? <==> !fits(Truncated(spans, 0)))
    ensures !fits(spans) && r.Some? ==>
      kept < |boundaries| && boundaries[kept] <= |Visible(spans)| &&
      r.value == Truncated(spans, boundaries[kept]) && fits(r.value) &&
      (kept + 1 < |boundaries| ==> !fits(Truncated(spans, boundaries[kept + 1]))) &&
      Visible(r.value) == Visible(spans)[..boundaries[kept]] + NOTICE.text
  {
    kept := 0;
    if fits(spans) {
      return Some(spans), 0;
    }
    var bare := BuildPrefix(spans, 0);
    if !fits(bare) {
      return None, 0;
    }
    var low: nat, high: nat := 0, |boundaries|;
    while low + 1 < high
      invariant low < high <= |boundaries|
      invariant fits(Truncated(spans, boundaries[low]))
      invariant high < |boundaries| ==> !fits(Truncated(spans, boundaries[high]))
      decreases high - low
    {
      var mid := (low + high) / 2;
      var candidate := BuildPrefix(spans, boundaries[mid]);
      if fits(candidate) {
        low := mid;
      } else {
        high := mid;
      }
    }
    assert boundaries[low] <= boundaries[|boundaries| - 1];
    TruncatedShowsPrefixAndNotice(spans, boundaries[low]);
    var result := BuildPrefix(spans, boundaries[low]);
    return Some(result), low;
  }
}
