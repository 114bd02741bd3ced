/** `split_into_concepts` (`chunking.py`): a lesson text is cut at every
    "Concept <number>:" heading, and the stripped pieces longer than 200
    characters are kept, in order. Digits are ASCII digits. */
module Chunking {
  import opened Text

  const Prefix := "Concept "

  /** The minimum length of a kept piece is this plus one. */
  const MinLength := 200

  /** A whole heading: "Concept ", one or more digits, a colon. */
  predicate IsMarker(m: string) {
    && |m| >= |Prefix| + 2
    && m[..|Prefix|] == Prefix
    && m[|m| - 1] == ':'
    && (forall k :: |Prefix| <= k < |m| - 1 ==> IsDigit(m[k]))
  }

  /** Length of the run of digits starting at `i`. */
  function DigitsFrom(s: string, i: nat): (d: nat)
    requires i <= |s|
    decreases |s| - i
    ensures i + d <= |s|
    ensures forall k :: i <= k < i + d ==> IsDigit(s[k])
    ensures i + d < |s| ==> !IsDigit(s[i + d])
  {
    if i < |s| && IsDigit(s[i]) then 1 + DigitsFrom(s, i + 1) else 0
  }

  /** Length of the heading that starts at `i`, if one does. The greedy
      `\d+` takes the whole run of digits, and the colon must follow it. */
  function MarkerLength(s: string, i: nat): (n: Option<nat>)
    ensures n.Some? ==> i + n.value <= |s| && IsMarker(s[i..i + n.value])
  {
    if !OccursAt(s, Prefix, i) then None
    else
      var d := DigitsFrom(s, i + |Prefix|);
      var colon := i + |Prefix| + d;
      if d > 0 && colon < |s| && s[colon] == ':' then
        var m := s[i..colon + 1];
        assert m[..|Prefix|] == s[i..i + |Prefix|];
        assert forall k :: |Prefix| <= k < |m| - 1 ==> m[k] == s[i + k];
        Some(|Prefix| + d + 1)
      else None
  }

  /** A heading starting at `i` has exactly the length `MarkerLength`
      reports: the pattern matches there, and in one way only. */
  lemma MarkerLengthExact(s: string, i: nat, len: nat)
    requires i + len <= |s| && IsMarker(s[i..i + len])
    ensures MarkerLength(s, i) == Some(len)
  {
    var m := s[i..i + len];
    assert s[i..i + |Prefix|] == m[..|Prefix|];
    assert OccursAt(s, Prefix, i);
    var d := DigitsFrom(s, i + |Prefix|);
    forall k | i + |Prefix| <= k < i + len - 1
      ensures IsDigit(s[k])
    {
      assert s[k] == m[k - i];
    }
    assert s[i + len - 1] == ':';
  }

  /** A heading inside a slice is a heading of the whole text. */
  lemma MarkerInSlice(s: string, lo: nat, hi: nat, k: nat)
    requires lo <= hi <= |s| && MarkerLength(s[lo..hi], k).Some?
    ensures MarkerLength(s, lo + k) == MarkerLength(s[lo..hi], k)
  {
    var t := s[lo..hi];
    var len := MarkerLength(t, k).value;
    assert forall j :: k <= j < k + len ==> t[j] == s[lo + j];
    assert t[k..k + len] == s[lo + k..lo + k + len];
    MarkerLengthExact(s, lo + k, len);
  }

  /** No heading starts anywhere in `t`. */
  predicate NoMarker(t: string) {
    forall k :: 0 <= k < |t| ==> MarkerLength(t, k).None?
  }

  /** Where the next heading at or after `from` starts. */
  function NextMarker(s: string, from: nat): (r: Option<nat>)
    decreases |s| - from
    ensures r.Some? ==> from <= r.value < |s| && MarkerLength(s, r.value).Some?
    ensures r.Some? ==> forall k :: from <= k < r.value ==> MarkerLength(s, k).None?
    ensures r.None? ==> forall k :: from <= k < |s| ==> MarkerLength(s, k).None?
  {
    if from >= |s| then None
    else if MarkerLength(s, from).Some? then Some(from)
    else NextMarker(s, from + 1)
  }

  /** The text between two consecutive headings has no heading in it. */
  lemma GapHasNoMarker(s: string, from: nat, to: nat)
    requires from <= to <= |s|
    requires forall k :: from <= k < to ==> MarkerLength(s, k).None?
    ensures NoMarker(s[from..to])
  {
    forall k | 0 <= k < to - from
      ensures MarkerLength(s[from..to], k).None?
    {
      if MarkerLength(s[from..to], k).Some? {
        MarkerInSlice(s, from, to, k);
      }
    }
  }

  /** The pieces `re.split` returns and the headings it cut out. */
  datatype Parts = Parts(pieces: seq<string>, markers: seq<string>)

  /** `re.split(r'Concept \d+:', s[from..])`. */
  function SplitFrom(s: string, from: nat): (p: Parts)
    requires from <= |s|
    decreases |s| - from
    ensures |p.pieces| == |p.markers| + 1
    ensures forall k :: 0 <= k < |p.markers| ==> IsMarker(p.markers[k])
  {
    match NextMarker(s, from)
    case None => Parts([s[from..]], [])
    case Some(i) =>
      var n := MarkerLength(s, i).value;
      var rest := SplitFrom(s, i + n);
      Parts([s[from..i]] + rest.pieces, [s[i..i + n]] + rest.markers)
  }

  /** No piece holds a heading: `re.split` cut at every one. */
  lemma {:induction false} PiecesHaveNoMarker(s: string, from: nat)
    requires from <= |s|
    decreases |s| - from
    ensures forall k :: 0 <= k < |SplitFrom(s, from).pieces| ==> NoMarker(SplitFrom(s, from).pieces[k])
  {
    var p := SplitFrom(s, from);
    match NextMarker(s, from)
    case None =>
      GapHasNoMarker(s, from, |s|);
      assert s[from..|s|] == s[from..];
    case Some(i) =>
      var n := MarkerLength(s, i).value;
      GapHasNoMarker(s, from, i);
      PiecesHaveNoMarker(s, i + n);
      assert p.pieces[1..] == SplitFrom(s, i + n).pieces;
  }

  /** The pieces with the headings put back between them. */
  function Weave(pieces: seq<string>, markers: seq<string>): string
    requires |pieces| == |markers| + 1
  {
    if |markers| == 0 then pieces[0]
    else pieces[0] + markers[0] + Weave(pieces[1..], markers[1..])
  }

  /** Splitting loses nothing: putting the headings back gives the text. */
  lemma {:induction false} SplitWeave(s: string, from: nat)
    requires from <= |s|
    decreases |s| - from
    ensures Weave(SplitFrom(s, from).pieces, SplitFrom(s, from).markers) == s[from..]
  {
    match NextMarker(s, from)
    case None =>
    case Some(i) =>
      var j := SplitStep(s, from, i);
      SplitWeave(s, j);
      WeaveCons(SplitFrom(s, from), SplitFrom(s, j), s, from, i, j);
  }

  /** Weaving a piece and a heading in front of a woven rest. */
  lemma WeaveCons(p: Parts, rest: Parts, s: string, from: nat, i: nat, j: nat)
    requires from <= i <= j <= |s|
    requires |rest.pieces| == |rest.markers| + 1
    requires p.pieces == [s[from..i]] + rest.pieces && p.markers == [s[i..j]] + rest.markers
    requires Weave(rest.pieces, rest.markers) == s[j..]
    ensures |p.pieces| == |p.markers| + 1
    ensures Weave(p.pieces, p.markers) == s[from..]
  {
    assert p.pieces[1..] == rest.pieces && p.markers[1..] == rest.markers;
    assert s[from..] == s[from..i] + s[i..j] + s[j..];
  }

  /** The stripped pieces that are long enough. */
  function Kept(pieces: seq<string>): (r: seq<string>)
    ensures |r| <= |pieces|
    ensures forall k :: 0 <= k < |r| ==> |r[k]| > MinLength
  {
    if |pieces| == 0 then []
    else
      var c := Strip(pieces[0], Python);
      (if |c| > MinLength then [c] else []) + Kept(pieces[1..])
  }

  /** Exactly the long enough stripped pieces are kept. */
  lemma {:induction false} KeptMembers(pieces: seq<string>, x: string)
    ensures x in Kept(pieces) <==> exists p :: p in pieces && x == Strip(p, Python) && |x| > MinLength
  {
    if |pieces| > 0 {
      KeptMembers(pieces[1..], x);
      var c := Strip(pieces[0], Python);
      assert Kept(pieces) == (if |c| > MinLength then [c] else []) + Kept(pieces[1..]);
      if exists p :: p in pieces && x == Strip(p, Python) && |x| > MinLength {
        var p :| p in pieces && x == Strip(p, Python) && |x| > MinLength;
        if p != pieces[0] {
          assert p in pieces[1..];
        }
      }
      if exists p :: p in pieces[1..] && x == Strip(p, Python) && |x| > MinLength {
        var p :| p in pieces[1..] && x == Strip(p, Python) && |x| > MinLength;
        assert p in pieces;
      }
    }
  }

  /** `split_into_concepts(text)`: the long enough pieces between the
      headings, stripped. */
  function SplitIntoConcepts(text: string): (r: seq<string>)
    ensures forall k :: 0 <= k < |r| ==> |r[k]| > MinLength
  {
    Kept(SplitFrom(text, 0).pieces)
  }

  /** Stripping a heading-free piece leaves it heading-free. */
  lemma StripKeepsNoMarker(piece: string)
    requires NoMarker(piece)
    ensures NoMarker(Strip(piece, Python))
  {
    var c := Strip(piece, Python);
    var lo := LeadingSpace(piece, Python);
    forall k | 0 <= k < |c|
      ensures MarkerLength(c, k).None?
    {
      if MarkerLength(c, k).Some? {
        MarkerInSlice(piece, lo, lo + |c|, k);
      }
    }
  }

  /** Each kept piece is longer than 200 characters, already stripped and
      holds no heading. */
  lemma {:induction false} KeptShape(pieces: seq<string>)
    requires forall k :: 0 <= k < |pieces| ==> NoMarker(pieces[k])
    ensures forall k :: 0 <= k < |Kept(pieces)| ==>
      (|Kept(pieces)[k]| > MinLength && Strip(Kept(pieces)[k], Python) == Kept(pieces)[k] && NoMarker(Kept(pieces)[k]))
  {
    if |pieces| > 0 {
      var c := Strip(pieces[0], Python);
      KeptShape(pieces[1..]);
      StripIdempotent(pieces[0], Python);
      StripKeepsNoMarker(pieces[0]);
    }
  }

  lemma ConceptsShape(text: string)
    ensures var r := SplitIntoConcepts(text);
      forall k :: 0 <= k < |r| ==> (|r[k]| > MinLength && Strip(r[k], Python) == r[k] && NoMarker(r[k]))
  {
    PiecesHaveNoMarker(text, 0);
    KeptShape(SplitFrom(text, 0).pieces);
  }

  /** A text without a heading is one concept when it is long enough once
      stripped, and none otherwise. */
  lemma WithoutMarker(text: string)
    requires NoMarker(text)
    ensures SplitIntoConcepts(text) ==
      (if |Strip(text, Python)| > MinLength then [Strip(text, Python)] else [])
  {
    assert NextMarker(text, 0).None?;
    assert text[0..] == text;
    assert SplitFrom(text, 0).pieces == [text];
  }

  /** The concepts of a text are those of its parts, in order: the first
      heading cuts the text in two and the concepts of each half follow
      one another. */
  lemma {:induction false} KeptAppend(a: seq<string>, b: seq<string>)
    ensures Kept(a + b) == Kept(a) + Kept(b)
  {
    if |a| > 0 {
      assert (a + b)[1..] == a[1..] + b;
      KeptAppend(a[1..], b);
    } else {
      assert a + b == b;
    }
  }

  /** One step of the split: the text before the next heading, then the
      split of the text after it. */
  lemma SplitStep(s: string, from: nat, i: nat) returns (j: nat)
    requires from <= |s| && NextMarker(s, from) == Some(i)
    ensures j == i + MarkerLength(s, i).value && from <= i <= j <= |s|
    ensures SplitFrom(s, from).pieces == [s[from..i]] + SplitFrom(s, j).pieces
    ensures SplitFrom(s, from).markers == [s[i..j]] + SplitFrom(s, j).markers
  {
    var n := MarkerLength(s, i).value;
    j := i + n;
    var rest := SplitFrom(s, i + n);
    assert SplitFrom(s, from) == Parts([s[from..i]] + rest.pieces, [s[i..i + n]] + rest.markers);
  }

  /** The pieces of one step of the split. */
  lemma PiecesStep(s: string, from: nat, i: nat)
    requires from <= |s| && NextMarker(s, from) == Some(i)
    ensures var n := MarkerLength(s, i).value;
      SplitFrom(s, from).pieces == [s[from..i]] + SplitFrom(s, i + n).pieces
  {
    var n := MarkerLength(s, i).value;
    var rest := SplitFrom(s, i + n);
    assert SplitFrom(s, from) == Parts([s[from..i]] + rest.pieces, [s[i..i + n]] + rest.markers);
  }

  lemma HeadingSplitsConcepts(text: string, i: nat)
    requires NextMarker(text, 0) == Some(i)
    ensures var n := MarkerLength(text, i).value;
      SplitIntoConcepts(text) == Kept([text[..i]]) + Kept(SplitFrom(text, i + n).pieces)
  {
    var n := MarkerLength(text, i).value;
    PiecesStep(text, 0, i);
    assert text[0..i] == text[..i];
    KeptAppend([text[..i]], SplitFrom(text, i + n).pieces);
  }
}
