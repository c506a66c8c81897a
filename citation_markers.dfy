/** `insert_citation_markers`: Markdown source links inserted into a response
    text at the end offsets of its citations. The citations are first sorted by
    (end offset, start offset) in decreasing order, with a stable sort, and
    inserted one by one; inserting from the end backwards keeps the offsets of
    the citations still to come valid in the original text. */
module CitationMarkers {
  import opened Wrappers
  import opened PyText
  import opened AgentUtils

  // ---------------------------------------------------------------------------
  // sorted(citations, key=lambda c: (c["end_index"], c["start_index"]), reverse=True)
  // ---------------------------------------------------------------------------

  /** The sort key of a citation. */
  function Key(c: Citation): (int, int) {
    (c.endIndex, c.startIndex)
  }

  /** `a` sorts strictly before `b` in the decreasing order of keys. */
  predicate KeyGreater(a: Citation, b: Citation) {
    a.endIndex > b.endIndex || (a.endIndex == b.endIndex && a.startIndex > b.startIndex)
  }

  /** Keys do not increase along `s`. */
  predicate Descending(s: seq<Citation>) {
    forall i, j :: 0 <= i < j < |s| ==> !KeyGreater(s[j], s[i])
  }

  /** Inserts `c` in front of the first element whose key is not greater than
      its own, so that `c` stays ahead of the elements with an equal key. */
  function InsertDesc(c: Citation, t: seq<Citation>): (r: seq<Citation>)
    requires Descending(t)
    ensures Descending(r)
    ensures multiset(r) == multiset([c]) + multiset(t)
    decreases |t|
  {
    if t == [] || !KeyGreater(t[0], c) then [c] + t
    else
      var rest := InsertDesc(c, t[1..]);
      assert t == [t[0]] + t[1..];
      InsertBehindHead(c, t, rest);
      [t[0]] + rest
  }

  /** Putting the head of `t` back in front of `c` inserted into the tail
      keeps the keys in order. */
  lemma InsertBehindHead(c: Citation, t: seq<Citation>, rest: seq<Citation>)
    requires Descending(t) && t != [] && KeyGreater(t[0], c)
    requires Descending(rest) && multiset(rest) == multiset([c]) + multiset(t[1..])
    ensures Descending([t[0]] + rest)
  {
    var r := [t[0]] + rest;
    forall i, j | 0 <= i < j < |r| ensures !KeyGreater(r[j], r[i]) {
      assert r[j] == rest[j - 1];
      if i == 0 {
        assert rest[j - 1] in multiset(rest);
        if r[j] != c {
          assert r[j] in multiset(t[1..]);
          assert r[j] in t[1..];
        }
      } else {
        assert r[i] == rest[i - 1];
      }
    }
  }

  /** The stable sort in decreasing key order that `sorted(..., reverse=True)`
      performs. */
  function SortDesc(s: seq<Citation>): (r: seq<Citation>)
    ensures Descending(r)
    ensures multiset(r) == multiset(s)
    decreases |s|
  {
    if s == [] then []
    else
      assert s == [s[0]] + s[1..];
      InsertDesc(s[0], SortDesc(s[1..]))
  }

  /** The citations of `s` whose key is `k`, in their order in `s`. */
  function WithKey(s: seq<Citation>, k: (int, int)): seq<Citation>
    decreases |s|
  {
    if s == [] then [] else (if Key(s[0]) == k then [s[0]] else []) + WithKey(s[1..], k)
  }

  lemma {:induction false} WithKeyInsert(c: Citation, t: seq<Citation>, k: (int, int))
    requires Descending(t)
    ensures WithKey(InsertDesc(c, t), k) == WithKey([c], k) + WithKey(t, k)
    decreases |t|
  {
    assert [c][1..] == [];
    if t == [] || !KeyGreater(t[0], c) {
      assert ([c] + t)[1..] == t;
    } else {
      var r := InsertDesc(c, t);
      assert r[1..] == InsertDesc(c, t[1..]);
      WithKeyInsert(c, t[1..], k);
    }
  }

  /** The sort is stable: citations with equal keys keep their relative
      order. */
  lemma {:induction false} SortDescStable(s: seq<Citation>, k: (int, int))
    ensures WithKey(SortDesc(s), k) == WithKey(s, k)
    decreases |s|
  {
    if s != [] {
      var t := SortDesc(s[1..]);
      assert SortDesc(s) == InsertDesc(s[0], t);
      WithKeyInsert(s[0], t, k);
      SortDescStable(s[1..], k);
      assert [s[0]][1..] == [];
      var head := if Key(s[0]) == k then [s[0]] else [];
      assert WithKey([s[0]], k) == head + [];
      assert head + [] == head;
      assert WithKey(s, k) == head + WithKey(s[1..], k);
    }
  }

  // ---------------------------------------------------------------------------
  // The markers
  // ---------------------------------------------------------------------------

  /** `f"{segment['short_url']}"`: a missing short URL prints as `None`. */
  function UrlText(u: Option<string>): string {
    match u
    case Some(v) => v
    case None => "None"
  }

  /** The Markdown link of one source: ` [label](short_url)`. */
  function SegmentMarker(src: Source): string {
    " [" + src.title + "](" + UrlText(src.shortUrl) + ")"
  }

  /** The marker of a citation: its source links one after the other. */
  function Marker(segments: seq<Source>): string
    decreases |segments|
  {
    if segments == [] then ""
    else Marker(segments[..|segments| - 1]) + SegmentMarker(segments[|segments| - 1])
  }

  /** `t[:end] + marker + t[end:]`, with Python's clamping of slice bounds. */
  function InsertAt(t: string, c: Citation): (r: string)
    ensures |r| == |t| + |Marker(c.segments)|
  {
    var k := SliceIndex(c.endIndex, |t|);
    t[..k] + Marker(c.segments) + t[k..]
  }

  /** The text after inserting the markers of `s`, in the order of `s`. */
  function ApplyMarkers(t: string, s: seq<Citation>): string
    decreases |s|
  {
    if s == [] then t else ApplyMarkers(InsertAt(t, s[0]), s[1..])
  }

  /** The total length of the markers of `s`. */
  function MarkersLength(s: seq<Citation>): nat
    decreases |s|
  {
    if s == [] then 0 else |Marker(s[0].segments)| + MarkersLength(s[1..])
  }

  /** Every end offset of `s` lies within a text of length `n`. */
  predicate EndsWithin(s: seq<Citation>, n: nat) {
    forall i :: 0 <= i < |s| ==> 0 <= s[i].endIndex <= n
  }

  /** End offsets do not increase along `s`. */
  predicate EndsDescending(s: seq<Citation>) {
    forall i, j :: 0 <= i < j < |s| ==> s[j].endIndex <= s[i].endIndex
  }

  /** The text cut at the end offsets of the citations, with `mark(c)` placed
      right at the offset of each citation `c` and the text after it left as it
      was. */
  function WeaveWith(text: string, s: seq<Citation>, mark: Citation -> string): string
    requires EndsDescending(s) && EndsWithin(s, |text|)
    decreases |s|
  {
    if s == [] then text
    else
      var e := s[0].endIndex;
      WeaveWith(text[..e], s[1..], mark) + mark(s[0]) + text[e..]
  }

  function MarkerOf(c: Citation): string {
    Marker(c.segments)
  }

  /** The intended result, stated on the original text alone: each citation's
      marker at its end offset in the original text. */
  function Woven(text: string, s: seq<Citation>): string
    requires EndsDescending(s) && EndsWithin(s, |text|)
  {
    WeaveWith(text, s, MarkerOf)
  }

  /** `insert_citation_markers`: sort the citations, then for each build its
      marker and insert it into the text at its end offset. */
  method InsertCitationMarkers(text: string, citations: seq<Citation>) returns (modified: string)
    ensures modified == ApplyMarkers(text, SortDesc(citations))
    ensures |modified| == |text| + MarkersLength(citations)
    ensures citations == [] ==> modified == text
    ensures EndsWithin(citations, |text|) ==>
              EndsDescending(SortDesc(citations)) && EndsWithin(SortDesc(citations), |text|) &&
              modified == Woven(text, SortDesc(citations))
  {
    var sorted := SortDesc(citations);
    modified := text;
    for i := 0 to |sorted|
      invariant ApplyMarkers(modified, sorted[i..]) == ApplyMarkers(text, sorted)
    {
      var citation := sorted[i];
      var marker := "";
      for j := 0 to |citation.segments|
        invariant marker == Marker(citation.segments[..j])
      {
        assert citation.segments[..j + 1][..j] == citation.segments[..j];
        marker := marker + SegmentMarker(citation.segments[j]);
      }
      assert citation.segments[..|citation.segments|] == citation.segments;
      var endIdx := SliceIndex(citation.endIndex, |modified|);
      assert sorted[i..][1..] == sorted[i + 1..];
      modified := modified[..endIdx] + marker + modified[endIdx..];
    }
    ApplyLength(text, sorted);
    SortPreservesMarkersLength(citations);
    if EndsWithin(citations, |text|) {
      WovenOfSorted(text, citations);
    }
  }

  // ---------------------------------------------------------------------------
  // Properties
  // ---------------------------------------------------------------------------

  /** Each insertion adds exactly its marker: nothing of the text is lost,
      whatever the offsets. */
  lemma {:induction false} ApplyLength(t: string, s: seq<Citation>)
    ensures |ApplyMarkers(t, s)| == |t| + MarkersLength(s)
    decreases |s|
  {
    if s != [] {
      ApplyLength(InsertAt(t, s[0]), s[1..]);
    }
  }

  lemma {:induction false} InsertPreservesMarkersLength(c: Citation, t: seq<Citation>)
    requires Descending(t)
    ensures MarkersLength(InsertDesc(c, t)) == |Marker(c.segments)| + MarkersLength(t)
    decreases |t|
  {
    if t == [] || !KeyGreater(t[0], c) {
      assert ([c] + t)[1..] == t;
    } else {
      var r := InsertDesc(c, t);
      assert r[1..] == InsertDesc(c, t[1..]);
      InsertPreservesMarkersLength(c, t[1..]);
    }
  }

  /** Sorting does not change the total marker length. */
  lemma {:induction false} SortPreservesMarkersLength(s: seq<Citation>)
    ensures MarkersLength(SortDesc(s)) == MarkersLength(s)
    decreases |s|
  {
    if s != [] {
      SortPreservesMarkersLength(s[1..]);
      InsertPreservesMarkersLength(s[0], SortDesc(s[1..]));
    }
  }

  /** Markers inserted at offsets within `p` leave a suffix `q` alone. */
  lemma {:induction false} ApplyAppend(p: string, q: string, s: seq<Citation>)
    requires EndsWithin(s, |p|)
    ensures ApplyMarkers(p + q, s) == ApplyMarkers(p, s) + q
    decreases |s|
  {
    if s != [] {
      var e := s[0].endIndex;
      var m := Marker(s[0].segments);
      assert SliceIndex(e, |p + q|) == e && SliceIndex(e, |p|) == e;
      assert (p + q)[..e] == p[..e];
      assert (p + q)[e..] == p[e..] + q;
      assert InsertAt(p + q, s[0]) == InsertAt(p, s[0]) + q;
      ApplyAppend(InsertAt(p, s[0]), q, s[1..]);
    }
  }

  /** Inserting from the largest end offset down is the same as placing every
      marker at its offset in the original text. */
  lemma {:induction false} ApplyIsWoven(text: string, s: seq<Citation>)
    requires EndsDescending(s) && EndsWithin(s, |text|)
    ensures ApplyMarkers(text, s) == Woven(text, s)
    decreases |s|
  {
    if s != [] {
      var e := s[0].endIndex;
      var m := Marker(s[0].segments);
      assert text == text[..e] + text[e..];
      assert InsertAt(text, s[0]) == text[..e] + (m + text[e..]);
      ApplyAppend(text[..e], m + text[e..], s[1..]);
      ApplyIsWoven(text[..e], s[1..]);
    }
  }

  /** Deleting the markers from the woven text gives the original text back. */
  lemma {:induction false} MarkersRemoved(text: string, s: seq<Citation>)
    requires EndsDescending(s) && EndsWithin(s, |text|)
    ensures WeaveWith(text, s, c => "") == text
    decreases |s|
  {
    if s != [] {
      var e := s[0].endIndex;
      MarkersRemoved(text[..e], s[1..]);
      assert text == text[..e] + text[e..];
    }
  }

  /** Keys that do not increase have end offsets that do not increase. */
  lemma DescendingEnds(s: seq<Citation>)
    requires Descending(s)
    ensures EndsDescending(s)
  {
    forall a, b | 0 <= a < b < |s| ensures s[b].endIndex <= s[a].endIndex {
      assert !KeyGreater(s[b], s[a]);
    }
  }

  /** The woven text from offset `e` on: the text after `e` with the markers
      of `p`, whose end offsets are all at or after `e`. */
  function Above(text: string, p: seq<Citation>, e: int): string
    requires EndsDescending(p) && EndsWithin(p, |text|) && 0 <= e <= |text|
    requires forall k :: 0 <= k < |p| ==> e <= p[k].endIndex
    decreases |p|
  {
    if p == [] then text[e..]
    else
      var e0 := p[0].endIndex;
      Above(text[..e0], p[1..], e) + MarkerOf(p[0]) + text[e0..]
  }

  /** The markers of `r` from its last citation back to its first. */
  function MarkersBackward(r: seq<Citation>): string
    decreases |r|
  {
    if r == [] then "" else MarkersBackward(r[1..]) + MarkerOf(r[0])
  }

  /** Text appended after every end offset is left as it is. */
  lemma WovenAppend(p: string, q: string, s: seq<Citation>)
    requires EndsDescending(s) && EndsWithin(s, |p|)
    ensures EndsWithin(s, |p + q|)
    ensures Woven(p + q, s) == Woven(p, s) + q
  {
    if s != [] {
      var e := s[0].endIndex;
      assert (p + q)[..e] == p[..e];
      assert (p + q)[e..] == p[e..] + q;
    }
  }

  /** Cutting the woven text at an offset `e` that separates the citations
      ending at or after it (a prefix of `s`) from those ending at or before
      it. */
  lemma {:induction false} WovenSplit(text: string, s: seq<Citation>, k: nat, e: int)
    requires EndsDescending(s) && EndsWithin(s, |text|) && 0 <= e <= |text| && k <= |s|
    requires forall i :: 0 <= i < k ==> e <= s[i].endIndex
    requires forall i :: k <= i < |s| ==> s[i].endIndex <= e
    ensures Woven(text, s) == Woven(text[..e], s[k..]) + Above(text, s[..k], e)
    decreases k
  {
    if k == 0 {
      assert text == text[..e] + text[e..];
      WovenAppend(text[..e], text[e..], s);
    } else {
      var e0 := s[0].endIndex;
      assert text[..e0][..e] == text[..e];
      assert s[1..][k - 1..] == s[k..];
      assert s[..k][1..] == s[1..][..k - 1];
      WovenSplit(text[..e0], s[1..], k - 1, e);
    }
  }

  /** The tail of a list in decreasing end order, against the text before
      the head's offset. */
  lemma TailWithin(text: string, p: seq<Citation>, e: int)
    requires EndsDescending(p) && EndsWithin(p, |text|) && p != []
    requires forall k :: 0 <= k < |p| ==> e <= p[k].endIndex
    ensures EndsDescending(p[1..]) && EndsWithin(p[1..], |text[..p[0].endIndex]|)
    ensures forall k :: 0 <= k < |p[1..]| ==> e <= p[1..][k].endIndex
  {
    forall k | 0 <= k < |p[1..]| ensures 0 <= p[1..][k].endIndex <= p[0].endIndex {
      assert p[1..][k] == p[k + 1];
    }
  }

  /** Above an offset shared by all citations of `p`, their markers come
      first, from the last back to the first. */
  lemma {:induction false} AboveAllShared(text: string, p: seq<Citation>, e: int)
    requires EndsDescending(p) && EndsWithin(p, |text|) && 0 <= e <= |text|
    requires forall k :: 0 <= k < |p| ==> p[k].endIndex == e
    ensures Above(text, p, e) == MarkersBackward(p) + text[e..]
    decreases |p|
  {
    if p != [] {
      TailWithin(text, p, e);
      AboveAllShared(text[..e], p[1..], e);
      assert text[..e][e..] == [];
      assert MarkersBackward(p[1..]) + [] == MarkersBackward(p[1..]);
    }
  }

  /** Above an offset `e` shared by the citations of `p` from position `i`
      on, their markers come first, from the last of them back to the
      first. */
  lemma {:induction false} AboveShared(text: string, p: seq<Citation>, i: nat, e: int)
    requires EndsDescending(p) && EndsWithin(p, |text|) && 0 <= e <= |text| && i <= |p|
    requires forall k :: 0 <= k < |p| ==> e <= p[k].endIndex
    requires forall k :: i <= k < |p| ==> p[k].endIndex == e
    ensures Above(text, p, e) == MarkersBackward(p[i..]) + Above(text, p[..i], e)
    decreases i
  {
    if i == 0 {
      AboveAllShared(text, p, e);
      assert p[0..] == p && p[..0] == [];
    } else {
      var e0 := p[0].endIndex;
      TailWithin(text, p, e);
      assert p[1..][i - 1..] == p[i..];
      assert p[..i][1..] == p[1..][..i - 1];
      AboveShared(text[..e0], p[1..], i - 1, e);
      var shared, lower := MarkersBackward(p[i..]), Above(text[..e0], p[1..][..i - 1], e);
      assert Above(text, p[..i], e) == lower + MarkerOf(p[0]) + text[e0..];
      ConcatAssoc(shared, lower, MarkerOf(p[0]));
      ConcatAssoc(shared + lower, MarkerOf(p[0]), text[e0..]);
      ConcatAssoc(shared, lower + MarkerOf(p[0]), text[e0..]);
    }
  }

  /** Citations `i < j` of a list in decreasing end order that end at the same
      offset `e`: in the woven text their markers stand together right after
      the text before `e` (with the markers of the citations ending before
      it), from `j` back to `i`, and the text from `e` on follows them. */
  lemma SharedOffsetLayout(text: string, s: seq<Citation>, i: nat, j: nat)
    requires EndsDescending(s) && EndsWithin(s, |text|)
    requires i < j < |s| && s[i].endIndex == s[j].endIndex
    ensures Woven(text, s) ==
              Woven(text[..s[i].endIndex], s[j + 1..]) +
              (MarkersBackward(s[i..j + 1]) + Above(text, s[..i], s[i].endIndex))
  {
    SplitAtRun(text, s, i, j);
    SharedRunOfPrefix(text, s, i, j);
  }

  /** Between two citations of `s` that end at the same offset, every
      citation ends there too, and those before them end at or after it. */
  lemma RunSharesEnd(s: seq<Citation>, i: nat, j: nat)
    requires EndsDescending(s) && i <= j < |s| && s[i].endIndex == s[j].endIndex
    ensures forall k :: i <= k <= j ==> s[k].endIndex == s[i].endIndex
    ensures forall k :: 0 <= k < i ==> s[i].endIndex <= s[k].endIndex
    ensures forall k :: j < k < |s| ==> s[k].endIndex <= s[i].endIndex
  {
    forall k | i <= k <= j ensures s[k].endIndex == s[i].endIndex {
      if i < k < j {
        assert s[k].endIndex <= s[i].endIndex && s[j].endIndex <= s[k].endIndex;
      }
    }
  }

  /** `WovenSplit` right after the run `s[i..j]` of citations ending at the
      same offset. */
  lemma SplitAtRun(text: string, s: seq<Citation>, i: nat, j: nat)
    requires EndsDescending(s) && EndsWithin(s, |text|)
    requires i <= j < |s| && s[i].endIndex == s[j].endIndex
    ensures Woven(text, s) == Woven(text[..s[i].endIndex], s[j + 1..]) + Above(text, s[..j + 1], s[i].endIndex)
  {
    var k, e := j + 1, s[i].endIndex;
    RunSharesEnd(s, i, j);
    WovenSplit(text, s, k, e);
  }

  /** `AboveShared` for the prefix of `s` that ends with the run `s[i..j]`. */
  lemma SharedRunOfPrefix(text: string, s: seq<Citation>, i: nat, j: nat)
    requires EndsDescending(s) && EndsWithin(s, |text|)
    requires i <= j < |s| && s[i].endIndex == s[j].endIndex
    ensures Above(text, s[..j + 1], s[i].endIndex) ==
              MarkersBackward(s[i..j + 1]) + Above(text, s[..i], s[i].endIndex)
  {
    var e := s[i].endIndex;
    RunSharesEnd(s, i, j);
    var p := s[..j + 1];
    assert p[i..] == s[i..j + 1] && p[..i] == s[..i];
    AboveShared(text, p, i, e);
  }

  /** Two citations `i < j` of the sorted list that end at the same offset:
      the one with the larger start offset comes first, every citation between
      them ends there too, and in the text `insert_citation_markers` returns
      their markers stand side by side from `j` back to `i`, so at a shared
      offset markers read in increasing start order. */
  lemma SameEndAscendingStart(text: string, citations: seq<Citation>, i: nat, j: nat)
    requires EndsWithin(citations, |text|)
    requires i < j < |SortDesc(citations)| && SortDesc(citations)[i].endIndex == SortDesc(citations)[j].endIndex
    ensures EndsDescending(SortDesc(citations)) && EndsWithin(SortDesc(citations), |text|)
    ensures SortDesc(citations)[j].startIndex <= SortDesc(citations)[i].startIndex
    ensures forall k :: i <= k <= j ==> SortDesc(citations)[k].endIndex == SortDesc(citations)[i].endIndex
    ensures forall k :: 0 <= k < i ==> SortDesc(citations)[i].endIndex <= SortDesc(citations)[k].endIndex
    ensures var s := SortDesc(citations);
            var e := s[i].endIndex;
            ApplyMarkers(text, s) == Woven(text[..e], s[j + 1..]) + (MarkersBackward(s[i..j + 1]) + Above(text, s[..i], e))
  {
    var s := SortDesc(citations);
    WovenOfSorted(text, citations);
    assert !KeyGreater(s[j], s[i]);
    RunSharesEnd(s, i, j);
    SharedOffsetLayout(text, s, i, j);
  }

  /** When every end offset lies within the text, the sorted insertion puts
      each marker at its offset in the original text. */
  lemma WovenOfSorted(text: string, citations: seq<Citation>)
    requires EndsWithin(citations, |text|)
    ensures EndsDescending(SortDesc(citations)) && EndsWithin(SortDesc(citations), |text|)
    ensures ApplyMarkers(text, SortDesc(citations)) == Woven(text, SortDesc(citations))
  {
    var sorted := SortDesc(citations);
    forall i | 0 <= i < |sorted| ensures 0 <= sorted[i].endIndex <= |text| {
      assert sorted[i] in multiset(citations);
    }
    ApplyIsWoven(text, sorted);
  }
}
