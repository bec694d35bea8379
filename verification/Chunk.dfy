/** Overlapping chunks of page text for embedding. */
module Chunk {
  import opened Domain
  import opened Text

  const DEFAULT_MAX_CHARS := 500
  const DEFAULT_OVERLAP := 80

  // ----- Cleaning -----

  lemma TrimStartShorter(s: string)
    ensures |TrimStart(s)| <= |s| && (s != "" && IsSpace(s[0]) ==> |TrimStart(s)| < |s|)
  {
    var i := TrimStartWithin(s);
  }

  /** `replace(/\s+/g, ' ')`: every run of blanks becomes one space. */
  function Collapse(s: string): string
    decreases |s|
  {
    if s == "" then ""
    else if IsSpace(s[0]) then
      TrimStartShorter(s);
      " " + Collapse(TrimStart(s))
    else [s[0]] + Collapse(s[1..])
  }

  function Clean(text: string): string {
    Trim(Collapse(text))
  }

  lemma InkTrimStart(s: string)
    ensures Ink(TrimStart(s)) == Ink(s)
  {
    var i := TrimStartWithin(s);
    InkAppend(s[..i], s[i..]);
    InkBlank(s[..i]);
    assert s == s[..i] + s[i..];
  }

  /** Collapsed text: single spaces for blanks, no two in a row, nothing longer, no ink lost. */
  ghost predicate Collapsed(s: string) {
    && (forall i :: 0 <= i < |s| && IsSpace(s[i]) ==> s[i] == ' ')
    && (forall i :: 0 < i < |s| ==> !IsSpace(s[i - 1]) || !IsSpace(s[i]))
  }

  lemma CollapsedCons(c: char, t: string)
    requires Collapsed(Collapse(t)) && (IsSpace(c) ==> c == ' ' && (Collapse(t) == "" || !IsSpace(Collapse(t)[0])))
    ensures Collapsed([c] + Collapse(t)) && IsSpace(' ')
    ensures Ink([c] + Collapse(t)) == (if IsSpace(c) then "" else [c]) + Ink(Collapse(t))
  {
    assert ([c] + Collapse(t))[1..] == Collapse(t);
  }

  lemma {:induction false} CollapseFacts(s: string)
    ensures Collapsed(Collapse(s)) && |Collapse(s)| <= |s| && Ink(Collapse(s)) == Ink(s)
    ensures s != "" ==> Collapse(s) != "" && (IsSpace(Collapse(s)[0]) <==> IsSpace(s[0]))
    decreases |s|
  {
    hide IsSpace;
    if s == "" {
    } else if IsSpace(s[0]) {
      TrimStartShorter(s);
      var t := TrimStart(s);
      CollapseFacts(t);
      InkTrimStart(s);
      var i := TrimStartWithin(s);
      CollapsedCons(' ', t);
    } else {
      CollapseFacts(s[1..]);
      CollapsedCons(s[0], s[1..]);
    }
  }

  /** Cleaning keeps every ink character in order and leaves no blank at the ends and no two in a row. */
  lemma CleanFacts(text: string)
    ensures Collapsed(Clean(text)) && |Clean(text)| <= |text| && Ink(Clean(text)) == Ink(text)
    ensures var c := Clean(text); c != "" ==> !IsSpace(c[0]) && !IsSpace(c[|c| - 1])
  {
    hide IsSpace, Trim, Ink, Collapse;
    CollapseFacts(text);
    InkTrim(Collapse(text));
    var i, j := TrimWithin(Collapse(text));
  }

  // ----- Windows -----

  datatype Window = Window(start: nat, end: nat)

  /** `lastIndexOf(' ', from)`. */
  function LastSpace(s: string, from: int): (r: int)
    requires from < |s|
    ensures -1 <= r && (r <= from || r == -1) && (r >= 0 ==> s[r] == ' ')
    ensures forall i :: r < i <= from && 0 <= i ==> s[i] != ' '
    decreases from + 1
  {
    if from < 0 then -1 else if s[from] == ' ' then from else LastSpace(s, from - 1)
  }

  /** The window's end: at a space in its last two fifths if there is one. */
  function WindowEnd(clean: string, maxChars: nat, start: nat): (end: nat)
    requires maxChars >= 1 && start < |clean|
    ensures start < end <= start + maxChars && end <= |clean|
  {
    if start + maxChars >= |clean| then |clean|
    else
      var end := start + maxChars;
      var lastSpace := LastSpace(clean, end);
      if 5 * lastSpace > 5 * start + 3 * maxChars then lastSpace else end
  }

  function NextStart(w: Window, overlap: int): (start: nat)
    ensures start > w.start && start >= w.end - overlap
  {
    if w.start + 1 > w.end - overlap then w.start + 1 else w.end - overlap
  }

  function Windows(clean: string, maxChars: nat, overlap: int, start: nat): seq<Window>
    requires maxChars >= 1
    decreases |clean| - start
  {
    if start >= |clean| then []
    else
      var w := Window(start, WindowEnd(clean, maxChars, start));
      if w.end >= |clean| then [w] else [w] + Windows(clean, maxChars, overlap, NextStart(w, overlap))
  }

  function Piece(clean: string, w: Window): string {
    if w.start <= w.end <= |clean| then Trim(clean[w.start..w.end]) else ""
  }

  /** The pieces that are not empty. */
  function Pieces(clean: string, ws: seq<Window>): seq<string> {
    if ws == [] then []
    else
      var last := Piece(clean, ws[|ws| - 1]);
      Pieces(clean, ws[..|ws| - 1]) + if last == "" then [] else [last]
  }

  function Chunks(text: string, maxChars: nat, overlap: int): seq<string>
    requires maxChars >= 1
  {
    var clean := Clean(text);
    Pieces(clean, Windows(clean, maxChars, overlap, 0))
  }

  lemma PiecesSnoc(clean: string, ws: seq<Window>, w: Window)
    ensures Pieces(clean, ws + [w]) == Pieces(clean, ws) + if Piece(clean, w) == "" then [] else [Piece(clean, w)]
  {
    assert (ws + [w])[..|ws|] == ws;
  }

  lemma NoPieces(clean: string)
    ensures Pieces(clean, []) == []
  {}

  lemma WindowsStep(clean: string, maxChars: nat, overlap: int, start: nat)
    requires maxChars >= 1
    ensures start >= |clean| ==> Windows(clean, maxChars, overlap, start) == []
    ensures start < |clean| ==>
              var w := Window(start, WindowEnd(clean, maxChars, start));
              Windows(clean, maxChars, overlap, start)
              == [w] + if w.end >= |clean| then [] else Windows(clean, maxChars, overlap, NextStart(w, overlap))
  {}

  /** A text within the limit is one window, and its own piece: the early return changes nothing. */
  lemma WholeText(text: string, maxChars: nat, overlap: int)
    requires maxChars >= 1 && Clean(text) != "" && |Clean(text)| <= maxChars
    ensures Chunks(text, maxChars, overlap) == [Clean(text)]
  {
    CleanFacts(text);
    hide Clean;
    var clean := Clean(text);
    TrimSame(clean);
    assert clean[0..|clean|] == clean;
    PiecesSnoc(clean, [], Window(0, |clean|));
    assert [] + [Window(0, |clean|)] == [Window(0, |clean|)];
  }

  method ChunkText(text: string, maxChars: nat, overlap: int) returns (chunks: seq<string>)
    requires maxChars >= 1
    ensures chunks == Chunks(text, maxChars, overlap)
  {
    hide Clean, Collapse, Trim, Pieces, LastSpace, Windows;
    var clean := Clean(text);
    ghost var all := Windows(clean, maxChars, overlap, 0);
    NoPieces(clean);
    WindowsStep(clean, maxChars, overlap, 0);
    if clean == "" { return []; }
    if |clean| <= maxChars {
      WholeText(text, maxChars, overlap);
      return [clean];
    }
    chunks := [];
    var start := 0;
    ghost var done: seq<Window> := [];
    assert [] + all == all;
    while start < |clean|
      invariant chunks == Pieces(clean, done)
      invariant done + Windows(clean, maxChars, overlap, start) == all
      decreases |clean| - start
    {
      var end := if start + maxChars < |clean| then start + maxChars else |clean|;
      if end < |clean| {
        var lastSpace := LastSpace(clean, end);
        if 5 * lastSpace > 5 * start + 3 * maxChars { end := lastSpace; }
      }
      ghost var w := Window(start, end);
      var piece := Trim(clean[start..end]);
      PiecesSnoc(clean, done, w);
      if piece != "" { chunks := chunks + [piece]; }
      ghost var was := done;
      done := done + [w];
      WindowsStep(clean, maxChars, overlap, start);
      if end >= |clean| {
        assert [w] + [] == [w];
        return;
      }
      ConcatAssoc(was, [w], Windows(clean, maxChars, overlap, NextStart(w, overlap)));
      start := if start + 1 > end - overlap then start + 1 else end - overlap;
    }
    WindowsStep(clean, maxChars, overlap, start);
    assert done + [] == done;
  }

  // ----- What the chunks guarantee -----

  lemma {:induction false} WindowsSound(clean: string, maxChars: nat, overlap: int, start: nat, w: Window)
    requires maxChars >= 1 && w in Windows(clean, maxChars, overlap, start)
    ensures start <= w.start < w.end <= |clean| && w.end == WindowEnd(clean, maxChars, w.start)
    decreases |clean| - start
  {
    var v := Window(start, WindowEnd(clean, maxChars, start));
    if w != v { WindowsSound(clean, maxChars, overlap, NextStart(v, overlap), w); }
  }

  /** A space in the last two fifths of a window that starts at `start`, or right behind it. */
  predicate LateSpace(clean: string, maxChars: nat, start: nat, j: nat) {
    5 * start + 3 * maxChars < 5 * j && j <= start + maxChars && j < |clean| && clean[j] == ' '
  }

  /** A window that cannot reach the text's end ends at its last late space, and inside a word only if it has none. */
  lemma WordBoundary(clean: string, maxChars: nat, overlap: int, w: Window)
    requires maxChars >= 1 && w in Windows(clean, maxChars, overlap, 0)
    ensures w.end < |clean| ==> clean[w.end] == ' ' || w.end == w.start + maxChars
    ensures w.start + maxChars >= |clean| ==> w.end == |clean|
    ensures w.start + maxChars < |clean| ==>
              && (forall j: nat :: LateSpace(clean, maxChars, w.start, j) ==> j <= w.end)
              && (LateSpace(clean, maxChars, w.start, w.end)
                  || (w.end == w.start + maxChars && forall j: nat :: !LateSpace(clean, maxChars, w.start, j)))
  {
    WindowsSound(clean, maxChars, overlap, 0, w);
  }

  /**
   * The windows from first to last: the first starts the text, the last ends it, and each next one
   * starts the overlap before its neighbour's end, or one further than its neighbour if that is later.
   */
  lemma {:induction false} NeighboursOverlap(clean: string, maxChars: nat, overlap: int, start: nat, k: nat)
    requires maxChars >= 1 && start < |clean| && k < |Windows(clean, maxChars, overlap, start)|
    ensures var ws := Windows(clean, maxChars, overlap, start);
            && ws[0].start == start
            && (k + 1 == |ws| ==> ws[k].end >= |clean| || ws[k].end - overlap >= |clean|)
            && (k + 1 < |ws| ==>
                  && ws[k].end < |clean|
                  && (ws[k].end - overlap > ws[k].start ==> ws[k + 1].start == ws[k].end - overlap)
                  && (ws[k].end - overlap <= ws[k].start ==> ws[k + 1].start == ws[k].start + 1))
    decreases |clean| - start
  {
    hide WindowEnd;
    var w := Window(start, WindowEnd(clean, maxChars, start));
    WindowsStep(clean, maxChars, overlap, start);
    if w.end < |clean| {
      var next := NextStart(w, overlap);
      WindowsStep(clean, maxChars, overlap, next);
      if next < |clean| && k > 0 { NeighboursOverlap(clean, maxChars, overlap, next, k - 1); }
    }
  }

  /** Windows leave no gap: every position lies in one. */
  lemma {:induction false} WindowsCover(clean: string, maxChars: nat, overlap: nat, start: nat, i: nat)
      returns (w: Window)
    requires maxChars >= 1 && start <= i < |clean|
    ensures w in Windows(clean, maxChars, overlap, start) && w.start <= i < w.end
    decreases |clean| - start
  {
    w := Window(start, WindowEnd(clean, maxChars, start));
    if w.end <= i { w := WindowsCover(clean, maxChars, overlap, NextStart(w, overlap), i); }
  }

  /** The chunks are the windows' pieces that are not empty, in the order of the windows. */
  lemma {:induction false} PiecesInOrder(clean: string, ws: seq<Window>) returns (at: seq<nat>)
    ensures |at| == |Pieces(clean, ws)|
    ensures forall k :: 0 <= k < |at| ==> at[k] < |ws| && Pieces(clean, ws)[k] == Piece(clean, ws[at[k]])
    ensures forall k, l :: 0 <= k < l < |at| ==> at[k] < at[l]
    ensures forall i :: 0 <= i < |ws| ==> (Piece(clean, ws[i]) != "" <==> i in at)
  {
    hide Piece;
    if ws == [] {
      at := [];
    } else {
      var n := |ws| - 1;
      at := PiecesInOrder(clean, ws[..n]);
      if Piece(clean, ws[n]) != "" { at := at + [n]; }
    }
  }

  lemma {:induction false} PiecesMembers(clean: string, ws: seq<Window>, c: string)
    ensures c in Pieces(clean, ws) <==> c != "" && exists w :: w in ws && Piece(clean, w) == c
  {
    if ws != [] {
      var init, last := ws[..|ws| - 1], ws[|ws| - 1];
      PiecesMembers(clean, init, c);
      assert forall w :: w in ws <==> w in init || w == last;
    }
  }

  lemma SliceSlice(s: string, lo: nat, hi: nat, i: nat, j: nat)
    requires lo <= hi <= |s| && i <= j <= hi - lo
    ensures s[lo..hi][i..j] == s[lo + i..lo + j]
  {
    var a, b := s[lo..hi][i..j], s[lo + i..lo + j];
    forall k | 0 <= k < j - i
      ensures a[k] == b[k]
    {
      assert a[k] == s[lo..hi][i + k] == s[lo + i + k];
      assert b[k] == s[lo + i + k];
    }
  }

  lemma OutsideBlank(s: string, i: nat, j: nat)
    requires i <= j <= |s| && Blank(s[..i]) && Blank(s[j..])
    ensures forall m :: 0 <= m < i || j <= m < |s| ==> IsSpace(s[m])
  {
    hide IsSpace;
    assert forall m :: 0 <= m < i ==> s[m] == s[..i][m];
    assert forall m :: j <= m < |s| ==> s[m] == s[j..][m - j];
  }

  /** The piece of a window, with its place in the text. */
  lemma PieceWithin(clean: string, w: Window) returns (a: nat)
    requires w.start < w.end <= |clean|
    ensures var c := Piece(clean, w);
            w.start <= a && a + |c| <= w.end && c == clean[a..a + |c|]
            && (c != "" ==> !IsSpace(c[0]) && !IsSpace(c[|c| - 1]))
            && (forall i :: w.start <= i < w.end && !IsSpace(clean[i]) ==> a <= i < a + |c|)
  {
    hide IsSpace, Trim, Blank;
    var s := clean[w.start..w.end];
    var i, j := TrimWithin(s);
    a := w.start + i;
    OutsideBlank(s, i, j);
    var c := s[i..j];
    SliceSlice(clean, w.start, w.end, i, j);
    assert c != "" ==> c[0] == s[i] && c[|c| - 1] == s[j - 1];
    assert forall k :: w.start <= k < w.end ==> clean[k] == s[k - w.start];
  }

  /** Every chunk is a trimmed, non-empty stretch of the clean text no longer than the limit. */
  lemma ChunkBounded(text: string, maxChars: nat, overlap: int, c: string) returns (a: nat)
    requires maxChars >= 1 && c in Chunks(text, maxChars, overlap)
    ensures 0 < |c| <= maxChars && a + |c| <= |Clean(text)| && c == Clean(text)[a..a + |c|]
    ensures !IsSpace(c[0]) && !IsSpace(c[|c| - 1])
  {
    hide Clean, Windows, Pieces, Piece, WindowEnd, IsSpace;
    var clean := Clean(text);
    var ws := Windows(clean, maxChars, overlap, 0);
    PiecesMembers(clean, ws, c);
    var w :| w in ws && Piece(clean, w) == c;
    WindowsSound(clean, maxChars, overlap, 0, w);
    a := PieceWithin(clean, w);
    WindowShort(clean, maxChars, w);
  }

  lemma WindowShort(clean: string, maxChars: nat, w: Window)
    requires maxChars >= 1 && w.start < |clean| && w.end == WindowEnd(clean, maxChars, w.start)
    ensures w.start < w.end <= w.start + maxChars
  {}

  /** Position `i` of the clean text lies in a chunk: the chunk is the piece of a window there, from `a` on. */
  ghost predicate ChunkAt(text: string, maxChars: nat, overlap: int, i: nat, w: Window, a: nat)
    requires maxChars >= 1
  {
    var (clean, c) := (Clean(text), Piece(Clean(text), w));
    && w in Windows(clean, maxChars, overlap, 0) && c in Chunks(text, maxChars, overlap)
    && w.start <= a <= i < a + |c| <= w.end <= |clean| && c == clean[a..a + |c|]
  }

  ghost predicate InChunk(text: string, maxChars: nat, overlap: int, i: nat)
    requires maxChars >= 1
  {
    exists w, a: nat :: ChunkAt(text, maxChars, overlap, i, w, a)
  }

  /** Of every text, every ink character lies in a chunk. */
  ghost predicate AllCovered(maxChars: nat, overlap: int)
    requires maxChars >= 1
  {
    forall text, i: nat :: i < |Clean(text)| && !IsSpace(Clean(text)[i]) ==> InChunk(text, maxChars, overlap, i)
  }

  /** With an overlap that is not negative, every ink character of the text is in a chunk. */
  lemma InkCovered(text: string, maxChars: nat, overlap: nat, i: nat)
    requires maxChars >= 1 && i < |Clean(text)| && !IsSpace(Clean(text)[i])
    ensures InChunk(text, maxChars, overlap, i)
  {
    hide Clean, Windows, Pieces, Piece, WindowEnd, IsSpace;
    var clean := Clean(text);
    var w := WindowsCover(clean, maxChars, overlap, 0, i);
    WindowsSound(clean, maxChars, overlap, 0, w);
    var a := PieceWithin(clean, w);
    PiecesMembers(clean, Windows(clean, maxChars, overlap, 0), Piece(clean, w));
    assert ChunkAt(text, maxChars, overlap, i, w, a);
  }

  // ----- Negative overlaps -----

  /** A full window of one letter, and one more. */
  function Overlong(maxChars: nat): (s: string)
    ensures |s| == maxChars + 1 && s[maxChars] == 'b' && forall i :: 0 <= i < maxChars ==> s[i] == 'a'
  {
    seq(maxChars, _ => 'a') + "b"
  }

  lemma {:induction false} CollapseInk(s: string)
    requires forall i :: 0 <= i < |s| ==> !IsSpace(s[i])
    ensures Collapse(s) == s
  {
    if s != "" { CollapseInk(s[1..]); }
  }

  lemma {:induction false} NoSpaceFound(s: string, from: int)
    requires from < |s| && forall i :: 0 <= i < |s| ==> s[i] != ' '
    ensures LastSpace(s, from) == -1
    decreases from + 1
  {
    if from >= 0 { NoSpaceFound(s, from - 1); }
  }

  lemma CleanOverlong(maxChars: nat)
    ensures Clean(Overlong(maxChars)) == Overlong(maxChars)
  {
    assert !IsSpace('a') && !IsSpace('b');
    hide IsSpace;
    CollapseInk(Overlong(maxChars));
    TrimSame(Overlong(maxChars));
  }

  /** With any limit and any negative overlap, the last letter of an overlong text is in no chunk. */
  lemma NegativeOverlapSkips(maxChars: nat, overlap: int)
    requires maxChars >= 1 && overlap < 0
    ensures Chunks(Overlong(maxChars), maxChars, overlap) == [Overlong(maxChars)[..maxChars]]
    ensures forall c :: c in Chunks(Overlong(maxChars), maxChars, overlap) ==> 'b' !in c
  {
    CleanOverlong(maxChars);
    assert !IsSpace('a');
    hide Clean, Collapse, Trim, LastSpace, Windows, Pieces, IsSpace;
    var s := Overlong(maxChars);
    var w := Window(0, maxChars);
    NoSpaceFound(s, maxChars);
    assert WindowEnd(s, maxChars, 0) == maxChars;
    WindowsStep(s, maxChars, overlap, 0);
    WindowsStep(s, maxChars, overlap, NextStart(w, overlap));
    assert Windows(s, maxChars, overlap, 0) == [w];
    TrimSame(s[..maxChars]);
    assert s[0..maxChars] == s[..maxChars];
    NoPieces(s);
    PiecesSnoc(s, [], w);
    assert [] + [w] == [w];
  }

  /** The windows cover every text exactly when the overlap is not negative. */
  lemma CoveredExactly(maxChars: nat, overlap: int)
    requires maxChars >= 1
    ensures AllCovered(maxChars, overlap) <==> overlap >= 0
  {
    hide Clean, Chunks, Windows, Piece;
    if overlap >= 0 {
      forall text, i: nat | i < |Clean(text)| && !IsSpace(Clean(text)[i])
        ensures InChunk(text, maxChars, overlap, i)
      {
        InkCovered(text, maxChars, overlap, i);
      }
    } else {
      var text := Overlong(maxChars);
      CleanOverlong(maxChars);
      NegativeOverlapSkips(maxChars, overlap);
      forall w, a: nat
        ensures !ChunkAt(text, maxChars, overlap, maxChars, w, a)
      {
        LastLetter(maxChars, overlap, w, a);
      }
      assert !IsSpace(Clean(text)[maxChars]);
    }
  }

  lemma LastLetter(maxChars: nat, overlap: int, w: Window, a: nat)
    requires maxChars >= 1 && overlap < 0
    ensures !ChunkAt(Overlong(maxChars), maxChars, overlap, maxChars, w, a)
  {
    hide Clean, Chunks, Windows, Piece;
    var text := Overlong(maxChars);
    CleanOverlong(maxChars);
    NegativeOverlapSkips(maxChars, overlap);
    var c := Piece(text, w);
    assert a <= maxChars < a + |c| <= |text| && c == text[a..a + |c|] ==> c[maxChars - a] == 'b';
  }

  /** How far each window starts behind the one before, at least. */
  function Stride(maxChars: nat, overlap: int): (s: nat)
    ensures s >= 1
  {
    if 3 * maxChars / 5 + 1 - overlap > 1 then 3 * maxChars / 5 + 1 - overlap else 1
  }

  lemma StrideBound(maxChars: nat, overlap: int, clean: string, start: nat)
    requires maxChars >= 1 && start < |clean| && WindowEnd(clean, maxChars, start) < |clean|
    ensures NextStart(Window(start, WindowEnd(clean, maxChars, start)), overlap) >= start + Stride(maxChars, overlap)
  {
    hide LastSpace;
    assert start + 3 * maxChars / 5 < WindowEnd(clean, maxChars, start);
  }

  lemma Distribute(s: nat, m: int, n: int)
    requires m <= n
    ensures s * m <= s * n && s * (m + 1) == s * m + s
  {}

  lemma {:induction false} WindowsFew(clean: string, maxChars: nat, overlap: int, start: nat)
    requires maxChars >= 1 && start < |clean|
    ensures start + Stride(maxChars, overlap) * (|Windows(clean, maxChars, overlap, start)| - 1) < |clean|
    decreases |clean| - start
  {
    var w := Window(start, WindowEnd(clean, maxChars, start));
    WindowsStep(clean, maxChars, overlap, start);
    if w.end < |clean| {
      var next := NextStart(w, overlap);
      StrideBound(maxChars, overlap, clean, start);
      hide Stride, WindowEnd, NextStart, Windows;
      WindowsStep(clean, maxChars, overlap, next);
      if next < |clean| {
        WindowsFew(clean, maxChars, overlap, next);
        var m := |Windows(clean, maxChars, overlap, next)|;
        Distribute(Stride(maxChars, overlap), m - 1, m);
      }
    }
  }

  lemma {:induction false} PiecesFew(clean: string, ws: seq<Window>)
    ensures |Pieces(clean, ws)| <= |ws|
  {
    if ws != [] { PiecesFew(clean, ws[..|ws| - 1]); }
  }

  /** The number of chunks is linear in the text. */
  lemma ChunksFew(text: string, maxChars: nat, overlap: int)
    requires maxChars >= 1
    ensures Chunks(text, maxChars, overlap) == []
            || Stride(maxChars, overlap) * (|Chunks(text, maxChars, overlap)| - 1) < |text|
  {
    CleanFacts(text);
    hide Clean, Windows, Pieces, Stride;
    var clean := Clean(text);
    var ws := Windows(clean, maxChars, overlap, 0);
    PiecesFew(clean, ws);
    WindowsStep(clean, maxChars, overlap, 0);
    NoPieces(clean);
    if clean != "" {
      WindowsFew(clean, maxChars, overlap, 0);
      Distribute(Stride(maxChars, overlap), |Pieces(clean, ws)| - 1, |ws| - 1);
    }
  }

  /** With the defaults, n chunks need a text of more than 221 (n - 1) characters. */
  lemma DefaultChunksFew(text: string)
    ensures var n := |Chunks(text, DEFAULT_MAX_CHARS, DEFAULT_OVERLAP)|; n > 0 ==> 221 * (n - 1) < |text|
  {
    hide Chunks;
    ChunksFew(text, DEFAULT_MAX_CHARS, DEFAULT_OVERLAP);
  }
}
