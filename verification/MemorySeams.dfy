/** When stripping once is enough: the pieces between removed blocks must not join to a new one. */
module MemorySeams {
  import opened Outcomes
  import opened Text
  import opened MemoryTags

  // ---- The pieces a text falls into ----

  function Concat(pieces: seq<string>): string {
    if pieces == [] then "" else pieces[0] + Concat(pieces[1..])
  }

  /** What the scan keeps: the stretches before, between and behind the matches. */
  function Kept(next: string -> Option<(nat, nat)>, s: string): seq<string>
    decreases |s|
  {
    var b := next(s);
    if b.None? || !(b.value.0 < b.value.1 <= |s|) then [s] else [s[..b.value.0]] + Kept(next, s[b.value.1..])
  }

  function Pieces(t: Tags, s: string): seq<string> {
    Kept(Matcher(Blocks(t.open, t.close)), s)
  }

  lemma {:induction false} KeptJoins(next: string -> Option<(nat, nat)>, s: string)
    ensures Concat(Kept(next, s)) == ReplaceAll(next, s)
    decreases |s|
  {
    var b := next(s);
    if b.Some? && b.value.0 < b.value.1 <= |s| {
      KeptJoins(next, s[b.value.1..]);
      ConcatCons(s[..b.value.0], Kept(next, s[b.value.1..]));
    } else {
      ConcatCons(s, []);
    }
  }

  lemma {:induction false} ConcatCons(x: string, pieces: seq<string>)
    ensures Concat([x] + pieces) == x + Concat(pieces)
  {
    assert ([x] + pieces)[1..] == pieces;
  }

  lemma {:induction false} ConcatAppend(xs: seq<string>, ys: seq<string>)
    ensures Concat(xs + ys) == Concat(xs) + Concat(ys)
  {
    if xs == [] {
      assert xs + ys == ys;
    } else {
      assert (xs + ys)[1..] == xs[1..] + ys;
      ConcatAppend(xs[1..], ys);
    }
  }

  // ---- Blocks by position ----

  /** An opening tag at `i` and a closing tag behind it at `j`. */
  predicate Pair(open: string, close: string, s: string, i: nat, j: nat) {
    OccursAt(s, open, i) && i + |open| <= j && OccursAt(s, close, j)
  }

  lemma {:induction false} PairIsBlock(open: string, close: string, s: string, i: nat, j: nat)
    requires Pair(open, close, s, i, j)
    ensures Block(open, close, s).Some?
  {
    var first := Find(s, open, 0);
    assert first.Some? && first.value <= i;
    assert Find(s, close, first.value + |open|).Some?;
  }

  lemma {:induction false} BlockIsPair(open: string, close: string, s: string) returns (i: nat, j: nat)
    requires Block(open, close, s).Some?
    ensures Pair(open, close, s, i, j)
  {
    i := Find(s, open, 0).value;
    j := Find(s, close, i + |open|).value;
  }

  lemma {:induction false} BlockIsFirst(open: string, close: string, s: string, k: nat)
    requires Block(open, close, s).Some? && k < Block(open, close, s).value.0
    ensures !OccursAt(s, open, k)
  {
  }

  /** What the scan does next. */
  lemma {:induction false} NextPiece(t: Tags, s: string)
    requires t.open != ""
    ensures var b := Block(t.open, t.close, s);
            if b.None? then Pieces(t, s) == [s]
            else var end := Skip(s, b.value.1);
                 b.value.0 < end <= |s| && Pieces(t, s) == [s[..b.value.0]] + Pieces(t, s[end..])
  {
    var b := Block(t.open, t.close, s);
    assert Matcher(Blocks(t.open, t.close))(s) == WithSpace(b, s);
  }

  // ---- Seams ----

  /** In the joined pieces an opening tag lies across the seam before piece `m`, and a closing tag follows it. */
  predicate Across(t: Tags, pieces: seq<string>, m: nat, i: nat, j: nat) {
    0 < m < |pieces| && Pair(t.open, t.close, Concat(pieces), i, j) && i < |Concat(pieces[..m])| < i + |t.open|
  }

  ghost predicate Rejoins(t: Tags, pieces: seq<string>) {
    exists m: nat, i: nat, j: nat :: Across(t, pieces, m, i, j)
  }

  lemma {:induction false} PairBehind(open: string, close: string, x: string, s: string, i: nat, j: nat)
    requires i >= |x| && j >= |x|
    ensures Pair(open, close, x + s, i, j) <==> Pair(open, close, s, i - |x|, j - |x|)
  {
    OccursBehind(open, x, s, i);
    OccursBehind(close, x, s, j);
  }

  lemma {:induction false} OccursBehind(pattern: string, x: string, s: string, i: nat)
    requires i >= |x|
    ensures OccursAt(x + s, pattern, i) <==> OccursAt(s, pattern, i - |x|)
  {
    assert i + |pattern| <= |x + s| ==> (x + s)[i..i + |pattern|] == s[i - |x|..i - |x| + |pattern|];
  }

  lemma {:induction false} AcrossBehind(t: Tags, x: string, pieces: seq<string>, m: nat, i: nat, j: nat)
    requires Across(t, pieces, m, i, j)
    ensures Across(t, [x] + pieces, m + 1, |x| + i, |x| + j)
  {
    ConcatCons(x, pieces);
    PairBehind(t.open, t.close, x, Concat(pieces), |x| + i, |x| + j);
    assert ([x] + pieces)[..m + 1] == [x] + pieces[..m];
    ConcatCons(x, pieces[..m]);
  }

  /** The first piece and the text behind the first match. */
  lemma {:induction false} FirstPiece(t: Tags, s: string) returns (x: string, rest: string)
    requires t.open != "" && Block(t.open, t.close, s).Some?
    ensures x == s[..Block(t.open, t.close, s).value.0] && |rest| < |s| && Pieces(t, rest) != []
    ensures Pieces(t, s) == [x] + Pieces(t, rest) && Concat(Pieces(t, s)) == x + Concat(Pieces(t, rest))
  {
    NextPiece(t, s);
    var b := Block(t.open, t.close, s).value;
    x, rest := s[..b.0], s[Skip(s, b.1)..];
    NextPiece(t, rest);
    ConcatCons(x, Pieces(t, rest));
  }

  predicate NoPair(t: Tags, s: string) {
    forall i, j | 0 <= i <= |s| && 0 <= j <= |s| :: !Pair(t.open, t.close, s, i, j)
  }

  predicate NoTag(t: Tags, s: string) {
    forall i | 0 <= i <= |s| :: !OccursAt(s, t.open, i)
  }

  /** No piece holds a block by itself, and only the last one may hold an opening tag. */
  predicate Scanned(t: Tags, pieces: seq<string>) {
    pieces != [] && if |pieces| == 1 then NoPair(t, pieces[0]) else NoTag(t, pieces[0]) && Scanned(t, pieces[1..])
  }

  lemma {:induction false} HeadHasNoTag(t: Tags, s: string)
    requires Block(t.open, t.close, s).Some? && t.open != ""
    ensures NoTag(t, s[..Block(t.open, t.close, s).value.0])
  {
    var n := Block(t.open, t.close, s).value.0;
    forall i | 0 <= i <= n ensures !OccursAt(s[..n], t.open, i) {
      OccursInHead(s, t.open, n, i);
      if i < n {
        BlockIsFirst(t.open, t.close, s, i);
      }
    }
  }

  lemma {:induction false} PiecesScanned(t: Tags, s: string)
    requires t.open != ""
    ensures Scanned(t, Pieces(t, s))
    decreases |s|
  {
    if Block(t.open, t.close, s).None? {
      NextPiece(t, s);
      forall i, j | 0 <= i <= |s| && 0 <= j <= |s| ensures !Pair(t.open, t.close, s, i, j) {
        if Pair(t.open, t.close, s, i, j) {
          PairIsBlock(t.open, t.close, s, i, j);
        }
      }
    } else {
      var x, rest := FirstPiece(t, s);
      HeadHasNoTag(t, s);
      PiecesScanned(t, rest);
      assert Pieces(t, s)[1..] == Pieces(t, rest);
    }
  }

  lemma {:induction false} OccursInside(pattern: string, x: string, s: string, i: nat)
    requires OccursAt(x + s, pattern, i) && i + |pattern| <= |x|
    ensures OccursAt(x, pattern, i)
  {
    assert (x + s)[i..i + |pattern|] == x[i..i + |pattern|];
  }

  lemma {:induction false} RejoinsBehind(t: Tags, x: string, pieces: seq<string>)
    requires Rejoins(t, pieces)
    ensures Rejoins(t, [x] + pieces)
  {
    var m: nat, i: nat, j: nat :| Across(t, pieces, m, i, j);
    AcrossBehind(t, x, pieces, m, i, j);
  }

  /** A tag that starts inside the first piece reaches beyond it. */
  lemma {:induction false} FirstSeam(t: Tags, x: string, rest: seq<string>, i: nat, j: nat)
    requires NoTag(t, x) && i < |x| && rest != [] && Pair(t.open, t.close, Concat([x] + rest), i, j)
    ensures Across(t, [x] + rest, 1, i, j)
  {
    assert ([x] + rest)[..1] == [x] + [];
    ConcatCons(x, []);
    ConcatCons(x, rest);
    if i + |t.open| <= |x| {
      OccursInside(t.open, x, Concat(rest), i);
    }
  }

  /** A block in the joined pieces lies across a seam. */
  lemma {:induction false} PairRejoins(t: Tags, pieces: seq<string>, i: nat, j: nat)
    requires Scanned(t, pieces) && Pair(t.open, t.close, Concat(pieces), i, j)
    ensures Rejoins(t, pieces)
  {
    var x, rest := pieces[0], pieces[1..];
    assert pieces == [x] + rest;
    ConcatCons(x, rest);
    assert rest == [] ==> Concat(pieces) == x;
    if rest != [] && i < |x| {
      FirstSeam(t, x, rest, i, j);
    } else if rest != [] {
      PairBehind(t.open, t.close, x, Concat(rest), i, j);
      PairRejoins(t, rest, i - |x|, j - |x|);
      RejoinsBehind(t, x, rest);
    }
  }

  // ---- Trimming ----

  lemma {:induction false} StartsInMiddle(open: string, w: string, r: string, i: nat)
    requires AllSpace(w) && open != "" && !IsSpace(open[0]) && OccursAt(w + r, open, i)
    ensures i >= |w|
  {
    var s := w + r;
    assert s[i] == s[i..i + |open|][0];
  }

  lemma {:induction false} EndsInMiddle(close: string, x: string, v: string, j: nat)
    requires AllSpace(v) && close != "" && !IsSpace(close[|close| - 1]) && OccursAt(x + v, close, j)
    ensures j + |close| <= |x|
  {
    var s := x + v;
    var last := j + |close| - 1;
    assert s[last] == s[j..j + |close|][|close| - 1];
  }

  lemma {:induction false} PairInMiddle(t: Tags, w: string, x: string, v: string, i: nat, j: nat)
    requires Fits(t) && AllSpace(w) && AllSpace(v) && Pair(t.open, t.close, w + (x + v), i, j)
    ensures i >= |w| && j >= |w| && Pair(t.open, t.close, x, i - |w|, j - |w|)
  {
    StartsInMiddle(t.open, w, x + v, i);
    PairBehind(t.open, t.close, w, x + v, i, j);
    EndsInMiddle(t.close, x, v, j - |w|);
    OccursInside(t.open, x, v, i - |w|);
    OccursInside(t.close, x, v, j - |w|);
  }

  lemma {:induction false} OccursBefore(pattern: string, x: string, v: string, i: nat)
    requires OccursAt(x, pattern, i)
    ensures OccursAt(x + v, pattern, i)
  {
    assert (x + v)[i..i + |pattern|] == x[i..i + |pattern|];
  }

  lemma {:induction false} PairOutside(open: string, close: string, w: string, x: string, v: string, i: nat, j: nat)
    requires Pair(open, close, x, i, j)
    ensures Pair(open, close, w + (x + v), |w| + i, |w| + j)
  {
    OccursBefore(open, x, v, i);
    OccursBefore(close, x, v, j);
    PairBehind(open, close, w, x + v, |w| + i, |w| + j);
  }

  lemma {:induction false} BlockInMiddle(t: Tags, w: string, x: string, v: string)
    requires Fits(t) && AllSpace(w) && AllSpace(v) && HasBlock(t, w + (x + v))
    ensures HasBlock(t, x)
  {
    var i, j := BlockIsPair(t.open, t.close, w + (x + v));
    PairInMiddle(t, w, x, v, i, j);
    PairIsBlock(t.open, t.close, x, i - |w|, j - |w|);
  }

  lemma {:induction false} BlockOutside(t: Tags, w: string, x: string, v: string)
    requires HasBlock(t, x)
    ensures HasBlock(t, w + (x + v))
  {
    var i, j := BlockIsPair(t.open, t.close, x);
    PairOutside(t.open, t.close, w, x, v, i, j);
    PairIsBlock(t.open, t.close, w + (x + v), |w| + i, |w| + j);
  }

  lemma {:induction false} TrimParts(s: string) returns (w: string, v: string)
    ensures AllSpace(w) && AllSpace(v) && s == w + (Trim(s) + v)
  {
    w := TrimStartCuts(s);
    v := TrimEndCuts(TrimStart(s));
  }

  /** Trimming neither makes nor breaks a block. */
  lemma {:induction false} TrimKeepsBlock(t: Tags, s: string)
    requires Fits(t)
    ensures HasBlock(t, Trim(s)) <==> HasBlock(t, s)
  {
    var w, v := TrimParts(s);
    if HasBlock(t, s) {
      BlockInMiddle(t, w, Trim(s), v);
    }
    if HasBlock(t, Trim(s)) {
      BlockOutside(t, w, Trim(s), v);
    }
  }

  // ---- The results ----

  /**
   * Stripping once is enough if and only if, in the text with its blocks cut out, no opening tag lies across a cut with a
   * closing tag behind it.
   */
  lemma {:induction false} StripSettlesIff(t: Tags, s: string)
    requires Fits(t)
    ensures Strip(t, Strip(t, s)) == Strip(t, s) <==> !Rejoins(t, Pieces(t, s))
  {
    StripAgainIff(t, s);
    TrimKeepsBlock(t, Replace(t.open, t.close, s));
    BlockIffRejoins(t, s);
  }

  lemma {:induction false} BlockIffRejoins(t: Tags, s: string)
    requires Fits(t)
    ensures HasBlock(t, Replace(t.open, t.close, s)) <==> Rejoins(t, Pieces(t, s))
  {
    KeptJoins(Matcher(Blocks(t.open, t.close)), s);
    if HasBlock(t, Replace(t.open, t.close, s)) {
      var i, j := BlockIsPair(t.open, t.close, Concat(Pieces(t, s)));
      PiecesScanned(t, s);
      PairRejoins(t, Pieces(t, s), i, j);
    }
    if Rejoins(t, Pieces(t, s)) {
      RejoinedBlock(t, Pieces(t, s));
    }
  }

  lemma {:induction false} RejoinedBlock(t: Tags, pieces: seq<string>)
    requires Rejoins(t, pieces)
    ensures HasBlock(t, Concat(pieces))
  {
    var m: nat, i: nat, j: nat :| Across(t, pieces, m, i, j);
    PairIsBlock(t.open, t.close, Concat(pieces), i, j);
  }

  /** The piece ends in the first `k` characters of the opening tag. */
  predicate EndsInTag(t: Tags, piece: string, k: nat) {
    0 < k < |t.open| && k <= |piece| && piece[|piece| - k..] == t.open[..k]
  }

  lemma {:induction false} AcrossEndsInTag(t: Tags, pieces: seq<string>, m: nat, i: nat) returns (q: nat, k: nat)
    requires 0 < m < |pieces| && OccursAt(Concat(pieces), t.open, i) && i < |Concat(pieces[..m])| < i + |t.open|
    ensures q + 1 < |pieces| && EndsInTag(t, pieces[q], k)
  {
    var before, piece := pieces[..m - 1], pieces[m - 1];
    assert pieces[..m] == before + [piece] && pieces == (before + [piece]) + pieces[m..];
    ConcatAppend(before, [piece]);
    ConcatCons(piece, []);
    assert [piece] + [] == [piece];
    if i < |Concat(before)| {
      q, k := AcrossEndsInTag(t, pieces, m - 1, i);
    } else {
      ConcatAppend(before + [piece], pieces[m..]);
      q, k := m - 1, |Concat(pieces[..m])| - i;
      TailIsTag(t.open, Concat(before), piece, Concat(pieces[m..]), i, k);
    }
  }

  lemma {:induction false} TailIsTag(open: string, a: string, x: string, z: string, i: nat, k: nat)
    requires OccursAt((a + x) + z, open, i) && i >= |a| && k == |a + x| - i && 0 < k < |open|
    ensures k <= |x| && x[|x| - k..] == open[..k]
  {
    var s := (a + x) + z;
    assert s[i..i + |open|][..k] == s[i..i + k] == x[|x| - k..];
  }

  lemma {:induction false} RejoinsEndsInTag(t: Tags, pieces: seq<string>) returns (q: nat, k: nat)
    requires Rejoins(t, pieces)
    ensures q + 1 < |pieces| && EndsInTag(t, pieces[q], k)
  {
    var m: nat, i: nat, j: nat :| Across(t, pieces, m, i, j);
    q, k := AcrossEndsInTag(t, pieces, m, i);
  }

  /** No removed block is directly preceded by the beginning of an opening tag. */
  ghost predicate CutsClean(t: Tags, pieces: seq<string>) {
    forall q: nat, k: nat | q + 1 < |pieces| :: !EndsInTag(t, pieces[q], k)
  }

  /** Then stripping once is enough. */
  lemma {:induction false} CleanCutsSettle(t: Tags, s: string)
    requires Fits(t) && CutsClean(t, Pieces(t, s))
    ensures Strip(t, Strip(t, s)) == Strip(t, s)
  {
    StripSettlesIff(t, s);
    if Rejoins(t, Pieces(t, s)) {
      var q, k := RejoinsEndsInTag(t, Pieces(t, s));
      assert false;
    }
  }
}
