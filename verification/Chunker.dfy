/** Cutting an extracted document into section-aware chunks. */
module Chunker {
  import opened Wrappers
  import opened Text
  import opened NumberFormat

  // ---- what the three line patterns recognise ----

  datatype TagKind = Topics | Schemes | Categories

  datatype LineKind =
    | PageMarker(page: nat)
    | TagMarker(kind: TagKind, values: seq<string>)
    | Heading(depth: nat, title: string, number: string)
    | Body

  type Classifier = string -> LineKind

  /** A heading has one to six hashes, and its printed number is digits and points. */
  ghost predicate SaneClassifier(classify: Classifier) {
    forall line :: classify(line).Heading? ==> classify(line).depth > 0 && '-' !in classify(line).number
  }

  // ---- words ----

  function WordsOf(texts: seq<string>): seq<string> {
    if texts == [] then [] else WordsOf(texts[..|texts| - 1]) + Words(texts[|texts| - 1])
  }

  lemma {:induction false} WordsOfJoins(a: seq<string>, b: seq<string>)
    ensures WordsOf(a + b) == WordsOf(a) + WordsOf(b)
  {
    hide Words;
    if b == [] {
      assert a + b == a;
    } else {
      assert (a + b)[..|a + b| - 1] == a + b[..|b| - 1];
      WordsOfJoins(a, b[..|b| - 1]);
    }
  }

  /** `separator.join(parts)`. */
  function Join(separator: string, parts: seq<string>): string {
    if parts == [] then ""
    else if |parts| == 1 then parts[0]
    else Join(separator, parts[..|parts| - 1]) + (separator + parts[|parts| - 1])
  }

  /** The separator stands between two parts, once. */
  lemma {:induction false} JoinAcross(separator: string, a: seq<string>, b: seq<string>)
    requires a != [] && b != []
    ensures Join(separator, a + b) == Join(separator, a) + separator + Join(separator, b)
    ensures |a| == 1 ==> Join(separator, a) == a[0]
  {
    var last := b[|b| - 1];
    if |b| == 1 {
      assert (a + b)[..|a + b| - 1] == a;
    } else {
      assert (a + b)[..|a + b| - 1] == a + b[..|b| - 1];
      JoinAcross(separator, a, b[..|b| - 1]);
    }
  }

  /** A joint made of whitespace neither loses nor merges words. */
  lemma {:induction false} WordsOfJoin(separator: string, parts: seq<string>)
    requires separator != "" && Blank(separator)
    ensures Words(Join(separator, parts)) == WordsOf(parts)
  {
    hide Words;
    if |parts| > 1 {
      var most, last := parts[..|parts| - 1], parts[|parts| - 1];
      WordsOfJoin(separator, most);
      WordsSplitAtSpace(Join(separator, most), separator + last);
      WordsSkipBlank(separator, last);
    } else if |parts| == 1 {
      assert parts[..0] == [];
      assert WordsOf(parts) == [] + Words(parts[0]);
    } else {
      WordsOfBlank("");
    }
  }

  // ---- paragraphs: text split at `\n\s*\n` ----

  /** One past the last newline among the first `n` characters. */
  function AfterLastNewline(s: string, n: nat): (j: nat)
    requires n <= |s|
    ensures j <= n && (j > 0 ==> s[j - 1] == '\n') && forall i :: j <= i < n ==> s[i] != '\n'
  {
    if n == 0 then 0 else if s[n - 1] == '\n' then n else AfterLastNewline(s, n - 1)
  }

  function BlankPrefix(s: string): (n: nat)
    ensures n <= |s| && Blank(s[..n]) && (n < |s| ==> !IsSpace(s[n]))
  {
    if s == "" || !IsSpace(s[0]) then 0 else 1 + BlankPrefix(s[1..])
  }

  /** Where the greedy match at the start of `s` ends; zero when there is none. */
  function BreakLength(s: string): (n: nat)
    ensures n <= |s| && Blank(s[..n])
  {
    if s == "" || s[0] != '\n' then 0
    else
      var j := AfterLastNewline(s[1..], BlankPrefix(s[1..]));
      if j == 0 then 0 else j + 1
  }

  /** `\n\s*\n`. */
  ghost predicate IsBreak(gap: string) {
    |gap| >= 2 && gap[0] == '\n' && gap[|gap| - 1] == '\n' && Blank(gap)
  }

  ghost predicate HasBreak(s: string) {
    exists i, j :: 0 <= i < j <= |s| && IsBreak(s[i..j])
  }

  /** A break is found where there is one, and taken whole. */
  lemma BreakIsFound(s: string, j: nat)
    requires j <= |s|
    ensures BreakLength(s) > 0 ==> IsBreak(s[..BreakLength(s)])
    ensures IsBreak(s[..j]) ==> j <= BreakLength(s)
  {
    if s != "" && s[0] == '\n' {
      var blank := BlankPrefix(s[1..]);
      var end := AfterLastNewline(s[1..], blank);
      if end > 0 {
        var gap := s[..end + 1];
        assert gap[end] == s[1..][end - 1];
        forall i | 0 <= i < |gap| ensures IsSpace(gap[i]) {
          if i > 0 { assert gap[i] == s[1..][..blank][i - 1]; }
        }
      }
      if IsBreak(s[..j]) { BreakIsInside(s, j); }
    }
  }

  lemma {:induction false} BlankPrefixCovers(s: string, n: nat)
    requires n <= |s| && Blank(s[..n])
    ensures n <= BlankPrefix(s)
  {
    if n > 0 {
      assert IsSpace(s[..n][0]);
      assert s[1..][..n - 1] == s[..n][1..];
      BlankPrefixCovers(s[1..], n - 1);
    }
  }

  lemma BreakIsInside(s: string, j: nat)
    requires j <= |s| && s != "" && s[0] == '\n' && IsBreak(s[..j])
    ensures j <= BreakLength(s)
  {
    hide IsSpace;
    var rest := s[1..];
    assert rest[..j - 1] == s[..j][1..];
    BlankPrefixCovers(rest, j - 1);
    assert rest[j - 2] == s[..j][j - 1];
  }

  /** The pieces with the gaps between them. */
  ghost function Interleaved(pieces: seq<string>, gaps: seq<string>): string
    requires |pieces| == |gaps| + 1
  {
    if gaps == [] then pieces[0] else pieces[0] + (gaps[0] + Interleaved(pieces[1..], gaps[1..]))
  }

  /** No break starts among the first `from` characters. */
  ghost predicate NoBreakBefore(s: string, from: nat) {
    forall i, j {:trigger s[i..j]} :: 0 <= i < from && i < j <= |s| ==> !IsBreak(s[i..j])
  }

  lemma OneMoreUnbroken(s: string, from: nat)
    requires from < |s| && NoBreakBefore(s, from) && BreakLength(s[from..]) == 0
    ensures NoBreakBefore(s, from + 1)
  {
    hide IsBreak, BreakLength;
    forall i, j | 0 <= i < from + 1 && i < j <= |s| ensures !IsBreak(s[i..j]) {
      if i == from {
        BreakIsFound(s[from..], j - from);
        assert s[from..][..j - from] == s[from..j];
      }
    }
  }

  lemma FrontIsUnbroken(s: string, from: nat)
    requires from <= |s| && NoBreakBefore(s, from)
    ensures !HasBreak(s[..from])
  {
    hide IsBreak;
    forall i, j | 0 <= i < j <= from ensures !IsBreak(s[..from][i..j]) { assert s[..from][i..j] == s[i..j]; }
  }

  lemma InterleavedFront(piece: string, gap: string, pieces: seq<string>, gaps: seq<string>)
    requires |pieces| == |gaps| + 1
    ensures Interleaved([piece] + pieces, [gap] + gaps) == piece + (gap + Interleaved(pieces, gaps))
  {
    assert ([piece] + pieces)[1..] == pieces && ([gap] + gaps)[1..] == gaps;
  }

  lemma PiecesUnfold(s: string, from: nat)
    requires from <= |s|
    ensures from == |s| ==> Pieces(s, from) == [s]
    ensures from < |s| ==>
              var n := BreakLength(s[from..]);
              Pieces(s, from) == if n == 0 then Pieces(s, from + 1) else [s[..from]] + Pieces(s[from + n..], 0)
  {
    hide BreakLength;
  }

  /** The text is cut at its breaks, all of them, and nowhere else. */
  lemma {:induction false} PiecesAreSplit(s: string, from: nat) returns (gaps: seq<string>)
    requires from <= |s| && NoBreakBefore(s, from)
    ensures |Pieces(s, from)| == |gaps| + 1 && Interleaved(Pieces(s, from), gaps) == s
    ensures forall gap :: gap in gaps ==> IsBreak(gap)
    ensures forall piece :: piece in Pieces(s, from) ==> !HasBreak(piece)
    decreases |s|, |s| - from
  {
    hide *;
    PiecesUnfold(s, from);
    if from == |s| {
      FrontIsUnbroken(s, from);
      assert s[..from] == s;
      gaps := [];
      InterleavedOne(s);
    } else {
      var n := BreakLength(s[from..]);
      if n == 0 {
        OneMoreUnbroken(s, from);
        gaps := PiecesAreSplit(s, from + 1);
      } else {
        var gap, rest := s[from..][..n], s[from + n..];
        BreakIsFound(s[from..], n);
        FrontIsUnbroken(s, from);
        NothingBefore(rest);
        var later := PiecesAreSplit(rest, 0);
        gaps := [gap] + later;
        InterleavedFront(s[..from], gap, Pieces(rest, 0), later);
        assert s == s[..from] + (gap + rest);
      }
    }
  }

  lemma InterleavedOne(s: string)
    ensures Interleaved([s], []) == s
  {
  }

  lemma NothingBefore(s: string)
    ensures NoBreakBefore(s, 0)
  {
  }

  function Pieces(s: string, from: nat): seq<string>
    requires from <= |s|
    decreases |s|, |s| - from
  {
    if from == |s| then [s]
    else
      var n := BreakLength(s[from..]);
      if n == 0 then Pieces(s, from + 1) else [s[..from]] + Pieces(s[from + n..], 0)
  }

  lemma {:induction false} PiecesKeepWords(s: string, from: nat)
    requires from <= |s|
    ensures WordsOf(Pieces(s, from)) == Words(s)
    decreases |s|, |s| - from
  {
    hide Words, BreakLength;
    if from == |s| {
      assert WordsOf([s]) == WordsOf([]) + Words(s);
    } else {
      var n := BreakLength(s[from..]);
      if n == 0 {
        PiecesKeepWords(s, from + 1);
      } else {
        var gap, rest := s[from..][..n], s[from + n..];
        PiecesKeepWords(rest, 0);
        WordsOfJoins([s[..from]], Pieces(rest, 0));
        assert WordsOf([s[..from]]) == WordsOf([]) + Words(s[..from]);
        assert s == s[..from] + (gap + rest);
        WordsSplitAtSpace(s[..from], gap + rest);
        WordsSkipBlank(gap, rest);
      }
    }
  }

  function StripAll(pieces: seq<string>): seq<string> {
    if pieces == [] then [] else
      var last := Strip(pieces[|pieces| - 1]);
      StripAll(pieces[..|pieces| - 1]) + if last == "" then [] else [last]
  }

  lemma {:induction false} StripAllKeepsWords(pieces: seq<string>)
    ensures WordsOf(StripAll(pieces)) == WordsOf(pieces)
  {
    hide Words, Strip;
    if pieces != [] {
      var most, last := pieces[..|pieces| - 1], pieces[|pieces| - 1];
      StripAllKeepsWords(most);
      StripKeepsWords(last);
      WordsOfBlank("");
      if Strip(last) == "" {
        assert StripAll(most) + [] == StripAll(most);
      } else {
        assert (StripAll(most) + [Strip(last)])[..|StripAll(most)|] == StripAll(most);
      }
    }
  }

  function Paragraphs(lines: seq<string>): seq<string> {
    StripAll(Pieces(Strip(Join("\n", lines)), 0))
  }

  lemma ParagraphsKeepWords(lines: seq<string>)
    ensures WordsOf(Paragraphs(lines)) == WordsOf(lines)
  {
    hide Words, Strip, StripAll, Pieces;
    var text := Strip(Join("\n", lines));
    StripAllKeepsWords(Pieces(text, 0));
    PiecesKeepWords(text, 0);
    StripKeepsWords(Join("\n", lines));
    WordsOfJoin("\n", lines);
  }

  lemma {:induction false} StrippedAreSlices(pieces: seq<string>, p: string)
    requires p in StripAll(pieces)
    ensures p != "" && !IsSpace(p[0]) && !IsSpace(p[|p| - 1]) && exists piece :: piece in pieces && p == Strip(piece)
  {
    hide IsSpace, Strip;
    var most, last := pieces[..|pieces| - 1], pieces[|pieces| - 1];
    if p in StripAll(most) { StrippedAreSlices(most, p); } else { StripEnds(last); }
  }

  lemma StripEnds(s: string)
    requires Strip(s) != ""
    ensures !IsSpace(Strip(s)[0]) && !IsSpace(Strip(s)[|Strip(s)| - 1])
  {
    hide IsSpace;
    assert Strip(s)[0] == StripLeft(s)[0];
  }

  lemma SliceIsUnbroken(s: string, a: nat, b: nat)
    requires !HasBreak(s) && a <= b <= |s|
    ensures !HasBreak(s[a..b])
  {
    hide IsBreak;
    forall i, j | 0 <= i < j <= |s[a..b]| ensures !IsBreak(s[a..b][i..j]) { SliceOfSlice(s, a, b, i, j); }
  }

  lemma SliceOfSlice(s: string, a: nat, b: nat, i: nat, j: nat)
    requires a <= b <= |s| && i <= j <= b - a
    ensures s[a..b][i..j] == s[a + i..a + j]
  {
    var x, y := s[a..b][i..j], s[a + i..a + j];
    assert |x| == |y| && forall k :: 0 <= k < |x| ==> x[k] == y[k];
  }

  lemma StripIsUnbroken(s: string)
    requires !HasBreak(s)
    ensures !HasBreak(Strip(s))
  {
    hide HasBreak, IsSpace;
    var left := StripLeft(s);
    SliceIsUnbroken(s, |s| - |left|, |s|);
    assert s[|s| - |left|..|s|] == left;
    SliceIsUnbroken(left, 0, |Strip(s)|);
    assert left[0..|Strip(s)|] == Strip(s);
  }

  /** A paragraph is not empty, has no blank at either end, and no break inside. */
  lemma ParagraphsAreWhole(lines: seq<string>, p: string)
    requires p in Paragraphs(lines)
    ensures p != "" && !IsSpace(p[0]) && !IsSpace(p[|p| - 1]) && !HasBreak(p)
  {
    hide *;
    var pieces := ParagraphPieces(lines);
    StrippedAreSlices(pieces, p);
    var piece :| piece in pieces && p == Strip(piece);
    StripIsUnbroken(piece);
  }

  lemma ParagraphPieces(lines: seq<string>) returns (pieces: seq<string>)
    ensures Paragraphs(lines) == StripAll(pieces) && forall piece :: piece in pieces ==> !HasBreak(piece)
  {
    hide StripAll, Pieces, HasBreak, NoBreakBefore, Strip;
    var text := Strip(Join("\n", lines));
    NothingBefore(text);
    var _ := PiecesAreSplit(text, 0);
    pieces := Pieces(text, 0);
  }

  // ---- packing paragraphs ----

  function Count(paragraphs: seq<string>): nat {
    if paragraphs == [] then 0 else Count(paragraphs[..|paragraphs| - 1]) + |Words(paragraphs[|paragraphs| - 1])|
  }

  function Flatten<T>(groups: seq<seq<T>>): seq<T> {
    if groups == [] then [] else Flatten(groups[..|groups| - 1]) + groups[|groups| - 1]
  }

  /** Within the limit, or a single paragraph. */
  predicate Fits(group: seq<string>, maxWords: int) {
    |group| == 1 || (|group| > 1 && Count(group) <= maxWords)
  }

  /** A cut falls only where the next paragraph would overflow. */
  predicate Overflows(group: seq<string>, next: seq<string>, maxWords: int) {
    next != [] && Count(group) + |Words(next[0])| > maxWords
  }

  ghost predicate Packed(paragraphs: seq<string>, groups: seq<seq<string>>, maxWords: int) {
    && Flatten(groups) == paragraphs
    && (forall i :: 0 <= i < |groups| ==> Fits(groups[i], maxWords))
    && forall i, j :: 0 <= i && j == i + 1 && j < |groups| ==> Overflows(groups[i], groups[j], maxWords)
  }

  function Texts(groups: seq<seq<string>>): (ts: seq<string>)
    ensures |ts| == |groups|
    ensures forall i :: 0 <= i < |ts| ==> ts[i] == Join("\n\n", groups[i])
  {
    if groups == [] then [] else Texts(groups[..|groups| - 1]) + [Join("\n\n", groups[|groups| - 1])]
  }

  /** The text keeps to the limit, or is one paragraph. */
  ghost predicate Limited(text: string, lines: seq<string>, maxWords: int) {
    |Words(text)| <= maxWords || text in Paragraphs(lines)
  }

  method SplitParagraphs(lines: seq<string>, maxWords: int) returns (chunks: seq<string>, ghost groups: seq<seq<string>>)
    ensures Packed(Paragraphs(lines), groups, maxWords) && chunks == Texts(groups)
    ensures WordsOf(chunks) == WordsOf(lines)
    ensures forall i :: 0 <= i < |chunks| ==> Limited(chunks[i], lines, maxWords)
  {
    hide *;
    var paragraphs := Paragraphs(lines);
    chunks, groups := [], [];
    var current: seq<string>, currentWords := [], 0;
    NothingPacked(maxWords);
    for i := 0 to |paragraphs|
      invariant Packed(paragraphs[..i], if current == [] then groups else groups + [current], maxWords)
      invariant current == [] <==> i == 0
      invariant current == [] ==> groups == []
      invariant chunks == Texts(groups) && currentWords == Count(current)
    {
      var para := paragraphs[i];
      var words := |Words(para)|;
      assert paragraphs[..i + 1] == paragraphs[..i] + [para];
      if current != [] && currentWords + words > maxWords {
        StartsGroup(paragraphs[..i], groups + [current], para, maxWords);
        chunks, groups := chunks + [Join("\n\n", current)], groups + [current];
        assert chunks == Texts(groups);
        current, currentWords := [], 0;
        NothingPacked(maxWords);
      } else if current == [] {
        FirstGroup(para, maxWords);
        assert paragraphs[..i + 1] == [para] && groups + [[para]] == [[para]];
      } else {
        JoinsGroup(paragraphs[..i], groups, current, para, maxWords);
      }
      CountOneMore(current, para);
      assert [] + [para] == [para];
      current := current + [para];
      currentWords := currentWords + words;
    }
    assert paragraphs[..|paragraphs|] == paragraphs;
    if current != [] {
      chunks, groups := chunks + [Join("\n\n", current)], groups + [current];
      assert chunks == Texts(groups);
    }
    GroupsKeepWords(groups);
    PackedFlattens(paragraphs, groups, maxWords);
    ParagraphsKeepWords(lines);
    PackedIsLimited(lines, groups, maxWords);
  }

  lemma {:induction false} CountIsWords(group: seq<string>)
    ensures Count(group) == |WordsOf(group)|
  {
    if group != [] { CountIsWords(group[..|group| - 1]); }
  }

  lemma {:induction false} FlattenHas(groups: seq<seq<string>>, i: nat)
    requires i < |groups|
    ensures forall p :: p in groups[i] ==> p in Flatten(groups)
  {
    if i < |groups| - 1 { FlattenHas(groups[..|groups| - 1], i); }
  }

  lemma PackedIsLimited(lines: seq<string>, groups: seq<seq<string>>, maxWords: int)
    requires Packed(Paragraphs(lines), groups, maxWords)
    ensures forall i :: 0 <= i < |groups| ==> Limited(Texts(groups)[i], lines, maxWords)
  {
    hide Words, WordsOf, Paragraphs, Flatten, Count;
    forall i | 0 <= i < |groups| ensures Limited(Texts(groups)[i], lines, maxWords) {
      var group := groups[i];
      assert Fits(group, maxWords);
      CountIsWords(group);
      WordsOfJoin("\n\n", group);
      if |group| == 1 {
        FlattenHas(groups, i);
        assert group[0] in group;
      }
    }
  }

  lemma NothingPacked(maxWords: int)
    ensures Packed([], [], maxWords) && Count([]) == 0
  {
  }

  lemma PackedFlattens(paragraphs: seq<string>, groups: seq<seq<string>>, maxWords: int)
    requires Packed(paragraphs, groups, maxWords)
    ensures Flatten(groups) == paragraphs
  {
  }

  lemma FirstGroup(para: string, maxWords: int)
    ensures Packed([para], [[para]], maxWords)
  {
    hide Words;
    assert [[para]][..0] == [];
    assert Flatten([[para]]) == Flatten([]) + [para];
  }

  lemma StartsGroup(paragraphs: seq<string>, groups: seq<seq<string>>, para: string, maxWords: int)
    requires Packed(paragraphs, groups, maxWords) && groups != []
    requires Count(groups[|groups| - 1]) + |Words(para)| > maxWords
    ensures Packed(paragraphs + [para], groups + [[para]], maxWords)
  {
    hide Words, Count;
    assert (groups + [[para]])[..|groups|] == groups;
  }

  lemma JoinsGroup(paragraphs: seq<string>, groups: seq<seq<string>>, current: seq<string>, para: string, maxWords: int)
    requires Packed(paragraphs, groups + [current], maxWords) && current != []
    requires Count(current) + |Words(para)| <= maxWords
    ensures Packed(paragraphs + [para], groups + [current + [para]], maxWords)
  {
    hide Words;
    var before, after := groups + [current], groups + [current + [para]];
    assert before[..|groups|] == groups == after[..|groups|];
    assert Flatten(after) == Flatten(before) + [para];
    assert (current + [para])[..|current|] == current;
    forall i, j | 0 <= i && j == i + 1 && j < |after| ensures Overflows(after[i], after[j], maxWords) {
      assert Overflows(before[i], before[j], maxWords);
    }
  }

  lemma {:induction false} GroupsKeepWords(groups: seq<seq<string>>)
    ensures WordsOf(Texts(groups)) == WordsOf(Flatten(groups))
  {
    hide Words;
    if groups != [] {
      var most, last := groups[..|groups| - 1], groups[|groups| - 1];
      GroupsKeepWords(most);
      WordsOfJoins(Flatten(most), last);
      WordsOfJoin("\n\n", last);
      assert Texts(groups)[..|most|] == Texts(most);
    }
  }

  // ---- the packing leaves no choice ----

  lemma {:induction false} FlattenJoins(a: seq<seq<string>>, b: seq<seq<string>>)
    ensures Flatten(a + b) == Flatten(a) + Flatten(b)
  {
    if b == [] {
      assert a + b == a;
    } else {
      assert (a + b)[..|a + b| - 1] == a + b[..|b| - 1];
      FlattenJoins(a, b[..|b| - 1]);
    }
  }

  lemma FlattenOne(group: seq<string>)
    ensures Flatten([group]) == group
  {
    assert [group][..0] == [] && [] + group == group;
  }

  lemma FlattenFront(groups: seq<seq<string>>)
    requires groups != []
    ensures Flatten(groups) == groups[0] + Flatten(groups[1..])
  {
    hide Flatten;
    assert groups == [groups[0]] + groups[1..];
    FlattenJoins([groups[0]], groups[1..]);
    FlattenOne(groups[0]);
  }

  lemma {:induction false} CountGrows(a: seq<string>, b: seq<string>)
    requires a <= b
    ensures Count(a) <= Count(b)
  {
    hide Words;
    if |a| < |b| {
      CountGrows(a, b[..|b| - 1]);
    } else {
      assert a == b;
    }
  }

  /** The first group of a packing is no shorter than that of any other. */
  lemma FirstGroupIsLongest(paragraphs: seq<string>, g: seq<seq<string>>, h: seq<seq<string>>, maxWords: int)
    requires Packed(paragraphs, g, maxWords) && Packed(paragraphs, h, maxWords) && g != [] && h != []
    ensures |g[0]| >= |h[0]|
  {
    hide Words, Count;
    FlattenFront(g);
    FlattenFront(h);
    if |g[0]| < |h[0]| {
      assert Flatten(g[1..]) != [];
      FlattenFront(g[1..]);
      assert Overflows(g[0], g[1], maxWords);
      var next := paragraphs[|g[0]|];
      assert next == g[1][0] == h[0][|g[0]|];
      assert g[0] == paragraphs[..|g[0]|] && h[0] == paragraphs[..|h[0]|];
      assert g[0] + [next] == h[0][..|g[0]| + 1];
      CountGrows(g[0] + [next], h[0]);
      CountOneMore(g[0], next);
    }
  }

  lemma CountOneMore(group: seq<string>, para: string)
    ensures Count(group + [para]) == Count(group) + |Words(para)|
  {
    assert (group + [para])[..|group|] == group;
  }

  /** Whatever order of work, only one packing fits every group and cuts only on overflow. */
  lemma {:induction false} PackingIsUnique(paragraphs: seq<string>, g: seq<seq<string>>, h: seq<seq<string>>, maxWords: int)
    requires Packed(paragraphs, g, maxWords) && Packed(paragraphs, h, maxWords)
    ensures g == h
    decreases |g|
  {
    hide Words, Count;
    if g == [] || h == [] {
      if g != [] { FlattenFront(g); }
      if h != [] { FlattenFront(h); }
    } else {
      FirstGroupIsLongest(paragraphs, g, h, maxWords);
      FirstGroupIsLongest(paragraphs, h, g, maxWords);
      FlattenFront(g);
      FlattenFront(h);
      var rest := paragraphs[|g[0]|..];
      TailIsPacked(paragraphs, g, maxWords);
      TailIsPacked(paragraphs, h, maxWords);
      PackingIsUnique(rest, g[1..], h[1..], maxWords);
      assert g == [g[0]] + g[1..] && h == [h[0]] + h[1..];
    }
  }

  lemma TailIsPacked(paragraphs: seq<string>, groups: seq<seq<string>>, maxWords: int)
    requires Packed(paragraphs, groups, maxWords) && groups != []
    ensures |groups[0]| <= |paragraphs| && Packed(paragraphs[|groups[0]|..], groups[1..], maxWords)
  {
    hide Words, Count;
    FlattenFront(groups);
    var rest := groups[1..];
    forall i, j | 0 <= i && j == i + 1 && j < |rest| ensures Overflows(rest[i], rest[j], maxWords) {
      assert rest[i] == groups[i + 1] && rest[j] == groups[j + 1];
    }
  }

  // ---- sections ----

  datatype Section = Section(
    headingPath: seq<string>,
    number: string,
    page: Option<nat>,
    topics: seq<string>,
    schemes: seq<string>,
    categories: seq<string>,
    lines: seq<string>)

  /** What the line loop carries: the sections so far, the open one last, the heading stack and the current page. */
  datatype Outline = Outline(sections: seq<Section>, stack: seq<string>, page: Option<nat>)

  const EMPTY_OUTLINE := Outline([Section([], "", None, [], [], [], [])], [], None)

  function Truncated(stack: seq<string>, n: nat): seq<string> {
    if n <= |stack| then stack[..n] else stack
  }

  function WithLast(sections: seq<Section>, s: Section): (r: seq<Section>)
    requires sections != []
    ensures |r| == |sections|
  {
    sections[..|sections| - 1] + [s]
  }

  function ReadLine(classify: Classifier, o: Outline, line: string): (r: Outline)
    requires o.sections != []
    ensures r.sections != []
  {
    var current := o.sections[|o.sections| - 1];
    match classify(line)
    case PageMarker(page) =>
      o.(page := Some(page), sections := WithLast(o.sections, current.(page := Some(page))))
    case TagMarker(Topics, values) => o.(sections := WithLast(o.sections, current.(topics := values)))
    case TagMarker(Schemes, values) => o.(sections := WithLast(o.sections, current.(schemes := values)))
    case TagMarker(Categories, values) => o.(sections := WithLast(o.sections, current.(categories := values)))
    case Heading(depth, title, number) =>
      var stack := Truncated(o.stack, if depth == 0 then 0 else depth - 1) + [title];
      o.(stack := stack, sections := o.sections + [Section(stack, number, o.page, [], [], [], [])])
    case Body => o.(sections := WithLast(o.sections, current.(lines := current.lines + [line])))
  }

  function ReadLines(classify: Classifier, lines: seq<string>): (o: Outline)
    ensures o.sections != []
  {
    if lines == [] then EMPTY_OUTLINE
    else ReadLine(classify, ReadLines(classify, lines[..|lines| - 1]), lines[|lines| - 1])
  }

  predicate AllBlank(lines: seq<string>) { forall i :: 0 <= i < |lines| ==> Strip(lines[i]) == "" }

  function NonBlank(sections: seq<Section>): seq<Section> {
    if sections == [] then [] else
      var last := sections[|sections| - 1];
      NonBlank(sections[..|sections| - 1]) + if AllBlank(last.lines) then [] else [last]
  }

  function Sections(classify: Classifier, lines: seq<string>): seq<Section> {
    NonBlank(ReadLines(classify, lines).sections)
  }

  method ParseSections(classify: Classifier, lines: seq<string>) returns (kept: seq<Section>)
    ensures kept == Sections(classify, lines)
  {
    hide ReadLine, Strip;
    var o := EMPTY_OUTLINE;
    for n := 0 to |lines|
      invariant o == ReadLines(classify, lines[..n])
    {
      assert lines[..n + 1][..n] == lines[..n];
      o := ReadLine(classify, o, lines[n]);
    }
    assert lines[..|lines|] == lines;
    kept := [];
    for n := 0 to |o.sections|
      invariant kept == NonBlank(o.sections[..n])
    {
      assert o.sections[..n + 1][..n] == o.sections[..n];
      if !AllBlank(o.sections[n].lines) { kept := kept + [o.sections[n]]; }
    }
    assert o.sections[..|o.sections|] == o.sections;
  }

  // ---- no word is lost on the way into sections ----

  function BodyLines(classify: Classifier, lines: seq<string>): seq<string> {
    if lines == [] then [] else
      var last := lines[|lines| - 1];
      BodyLines(classify, lines[..|lines| - 1]) + if classify(last).Body? then [last] else []
  }

  function LinesOf(sections: seq<Section>): seq<string> {
    if sections == [] then [] else LinesOf(sections[..|sections| - 1]) + sections[|sections| - 1].lines
  }

  lemma LinesOfWithLast(sections: seq<Section>, s: Section)
    requires sections != []
    ensures LinesOf(WithLast(sections, s)) == LinesOf(sections[..|sections| - 1]) + s.lines
  {
    assert WithLast(sections, s)[..|sections| - 1] == sections[..|sections| - 1];
  }

  lemma ReadLineFiles(classify: Classifier, o: Outline, line: string)
    requires o.sections != []
    ensures LinesOf(ReadLine(classify, o, line).sections)
         == LinesOf(o.sections) + if classify(line).Body? then [line] else []
  {
    hide LinesOf, WithLast, Truncated;
    var n := |o.sections| - 1;
    var current := o.sections[n];
    LinesOfLast(o.sections);
    match classify(line)
    case Heading(depth, title, number) =>
      var s := ReadLine(classify, o, line).sections[n + 1];
      LinesOfMore(o.sections, s);
    case Body =>
      LinesOfWithLast(o.sections, current.(lines := current.lines + [line]));
      assert LinesOf(o.sections[..n]) + (current.lines + [line]) == (LinesOf(o.sections[..n]) + current.lines) + [line];
    case PageMarker(page) => LinesOfWithLast(o.sections, current.(page := Some(page)));
    case TagMarker(Topics, values) => LinesOfWithLast(o.sections, current.(topics := values));
    case TagMarker(Schemes, values) => LinesOfWithLast(o.sections, current.(schemes := values));
    case TagMarker(Categories, values) => LinesOfWithLast(o.sections, current.(categories := values));
  }

  lemma LinesOfLast(sections: seq<Section>)
    requires sections != []
    ensures LinesOf(sections) == LinesOf(sections[..|sections| - 1]) + sections[|sections| - 1].lines
    ensures LinesOf(sections) + [] == LinesOf(sections)
  {
  }

  lemma LinesOfMore(sections: seq<Section>, s: Section)
    ensures LinesOf(sections + [s]) == LinesOf(sections) + s.lines
  {
    assert (sections + [s])[..|sections|] == sections;
  }

  /** The sections hold the lines that are neither headings nor markers, all of them, in order. */
  lemma {:induction false} SectionsHoldBody(classify: Classifier, lines: seq<string>)
    ensures LinesOf(ReadLines(classify, lines).sections) == BodyLines(classify, lines)
  {
    hide ReadLine;
    if lines == [] {
      assert EMPTY_OUTLINE.sections[..0] == [];
      assert LinesOf(EMPTY_OUTLINE.sections) == LinesOf([]) + [];
    } else {
      SectionsHoldBody(classify, lines[..|lines| - 1]);
      ReadLineFiles(classify, ReadLines(classify, lines[..|lines| - 1]), lines[|lines| - 1]);
    }
  }

  lemma {:induction false} BlankLinesHaveNoWords(lines: seq<string>)
    requires AllBlank(lines)
    ensures WordsOf(lines) == []
  {
    hide Words, Strip;
    if lines != [] {
      BlankLinesHaveNoWords(lines[..|lines| - 1]);
      StripKeepsWords(lines[|lines| - 1]);
      WordsOfBlank("");
    }
  }

  lemma {:induction false} NonBlankKeepsWords(sections: seq<Section>)
    ensures WordsOf(LinesOf(NonBlank(sections))) == WordsOf(LinesOf(sections))
  {
    hide Words, AllBlank;
    if sections != [] {
      var most, last := sections[..|sections| - 1], sections[|sections| - 1];
      NonBlankKeepsWords(most);
      WordsOfJoins(LinesOf(most), last.lines);
      if AllBlank(last.lines) {
        BlankLinesHaveNoWords(last.lines);
        assert NonBlank(most) + [] == NonBlank(most);
      } else {
        assert (NonBlank(most) + [last])[..|NonBlank(most)|] == NonBlank(most);
        WordsOfJoins(LinesOf(NonBlank(most)), last.lines);
      }
    }
  }

  lemma SectionsKeepWords(classify: Classifier, lines: seq<string>)
    ensures WordsOf(LinesOf(Sections(classify, lines))) == WordsOf(BodyLines(classify, lines))
  {
    hide Words, AllBlank, NonBlank, ReadLines;
    SectionsHoldBody(classify, lines);
    NonBlankKeepsWords(ReadLines(classify, lines).sections);
  }

  // ---- which lines give a section its page, tags and number ----

  /** The lines before the first heading, and then from each heading up to the next. */
  function Segments(classify: Classifier, lines: seq<string>): (segs: seq<seq<string>>)
    ensures segs != []
  {
    if lines == [] then [[]] else
      var segs, last := Segments(classify, lines[..|lines| - 1]), lines[|lines| - 1];
      if classify(last).Heading? then segs + [[last]]
      else segs[..|segs| - 1] + [segs[|segs| - 1] + [last]]
  }

  /** What the last marker of a kind says. */
  function LastTag(classify: Classifier, kind: TagKind, lines: seq<string>): seq<string> {
    if lines == [] then [] else
      var last := classify(lines[|lines| - 1]);
      if last.TagMarker? && last.kind == kind then last.values
      else LastTag(classify, kind, lines[..|lines| - 1])
  }

  function LastPage(classify: Classifier, lines: seq<string>): Option<nat> {
    if lines == [] then None else
      var last := classify(lines[|lines| - 1]);
      if last.PageMarker? then Some(last.page) else LastPage(classify, lines[..|lines| - 1])
  }

  /** The section has the body lines of its stretch, and for each tag what the last marker there says. */
  ghost predicate Describes(classify: Classifier, s: Section, seg: seq<string>) {
    && s.lines == BodyLines(classify, seg) && s.topics == LastTag(classify, Topics, seg)
    && s.schemes == LastTag(classify, Schemes, seg) && s.categories == LastTag(classify, Categories, seg)
  }

  /** Its page is that of the last marker up to its end. */
  ghost predicate Paged(classify: Classifier, s: Section, before: Option<nat>, seg: seq<string>) {
    s.page == if LastPage(classify, seg).Some? then LastPage(classify, seg) else before
  }

  /** It is numbered by its heading, whose title stands below those of the enclosing levels. */
  ghost predicate Headed(classify: Classifier, s: Section, above: seq<string>, seg: seq<string>) {
    seg != [] && classify(seg[0]).Heading? &&
    var h := classify(seg[0]);
    && s.number == h.number && s.headingPath != [] && s.headingPath[|s.headingPath| - 1] == h.title
    && s.headingPath[..|s.headingPath| - 1] <= above
    && |s.headingPath| - 1 == if h.depth - 1 <= |above| then h.depth - 1 else |above|
  }

  ghost predicate FrontMatter(s: Section) {
    s.headingPath == [] && s.number == ""
  }

  ghost predicate Explained(classify: Classifier, sections: seq<Section>, segs: seq<seq<string>>, k: nat)
    requires k < |sections| == |segs|
  {
    && Describes(classify, sections[k], segs[k])
    && Paged(classify, sections[k], if k == 0 then None else sections[k - 1].page, segs[k])
    && if k == 0 then FrontMatter(sections[k])
       else Headed(classify, sections[k], sections[k - 1].headingPath, segs[k])
  }

  ghost predicate Outlines(classify: Classifier, o: Outline, segs: seq<seq<string>>) {
    && |o.sections| == |segs| > 0
    && (forall k: nat :: k < |segs| ==> Explained(classify, o.sections, segs, k))
    && o.stack == o.sections[|segs| - 1].headingPath && o.page == o.sections[|segs| - 1].page
  }

  /** The open section takes one more line. */
  lemma LineExplains(classify: Classifier, s: Section, before: Option<nat>, seg: seq<string>, line: string, page: Option<nat>)
    requires !classify(line).Heading? && Describes(classify, s, seg) && Paged(classify, s, before, seg)
    ensures var o := ReadLine(classify, Outline([s], s.headingPath, s.page), line);
            && |o.sections| == 1 && Describes(classify, o.sections[0], seg + [line])
            && Paged(classify, o.sections[0], before, seg + [line])
            && o.page == o.sections[0].page && o.stack == s.headingPath
            && o.sections[0].headingPath == s.headingPath && o.sections[0].number == s.number
  {
    assert (seg + [line])[..|seg|] == seg;
    assert s.lines + [] == s.lines;
  }

  /** Only the open section is touched, whatever stands before it. */
  lemma LineTouchesLast(classify: Classifier, o: Outline, line: string)
    requires o.sections != [] && !classify(line).Heading?
    ensures var last := o.sections[|o.sections| - 1];
            var one := ReadLine(classify, Outline([last], o.stack, o.page), line);
            var r := ReadLine(classify, o, line);
            && one.sections != [] && r.sections == o.sections[..|o.sections| - 1] + [one.sections[0]]
            && r.stack == one.stack && r.page == one.page
  {
    assert [o.sections[|o.sections| - 1]][..0] == [];
  }

  lemma NewSectionIsExplained(classify: Classifier, o: Outline, line: string)
    requires SaneClassifier(classify) && classify(line).Heading? && o.sections != []
    requires o.stack == o.sections[|o.sections| - 1].headingPath && o.page == o.sections[|o.sections| - 1].page
    ensures var r, last := ReadLine(classify, o, line), o.sections[|o.sections| - 1];
            && |r.sections| == |o.sections| + 1 && r.sections[..|o.sections|] == o.sections
            && var s := r.sections[|o.sections|];
               && r.stack == s.headingPath && r.page == s.page && Describes(classify, s, [line])
               && Paged(classify, s, last.page, [line]) && Headed(classify, s, last.headingPath, [line])
  {
    assert [line][..0] == [];
  }

  lemma StaysExplained(classify: Classifier, a: seq<Section>, b: seq<Section>, segs: seq<seq<string>>,
                       longer: seq<seq<string>>, k: nat)
    requires k < |a| == |segs| && k < |b| == |longer| && Explained(classify, a, segs, k)
    requires b[k] == a[k] && longer[k] == segs[k] && (k > 0 ==> b[k - 1] == a[k - 1])
    ensures Explained(classify, b, longer, k)
  {
    hide Describes, Paged, Headed;
  }

  /** Every section of the document is what its own stretch of lines, and the sections before it, say it is. */
  lemma {:induction false} SectionsAreExplained(classify: Classifier, lines: seq<string>)
    requires SaneClassifier(classify)
    ensures Outlines(classify, ReadLines(classify, lines), Segments(classify, lines))
  {
    hide ReadLine, Explained, Describes, Paged, Headed;
    if lines == [] {
      NothingIsExplained(classify);
    } else {
      var most, line := lines[..|lines| - 1], lines[|lines| - 1];
      SectionsAreExplained(classify, most);
      OneMoreLine(classify, ReadLines(classify, most), Segments(classify, most), line);
    }
  }

  lemma NothingIsExplained(classify: Classifier)
    ensures Outlines(classify, EMPTY_OUTLINE, [[]])
  {
  }

  lemma OneMoreLine(classify: Classifier, o: Outline, segs: seq<seq<string>>, line: string)
    requires SaneClassifier(classify) && Outlines(classify, o, segs) && o.sections != []
    ensures var longer := if classify(line).Heading? then segs + [[line]]
                          else segs[..|segs| - 1] + [segs[|segs| - 1] + [line]];
            Outlines(classify, ReadLine(classify, o, line), longer)
  {
    hide ReadLine, Describes, Paged, Headed;
    var n := |segs| - 1;
    var r, last := ReadLine(classify, o, line), o.sections[n];
    assert Explained(classify, o.sections, segs, n);
    if classify(line).Heading? {
      var longer := segs + [[line]];
      NewSectionIsExplained(classify, o, line);
      forall k: nat | k < |longer| ensures Explained(classify, r.sections, longer, k) {
        if k <= n {
          assert r.sections[..|o.sections|][k] == o.sections[k];
          if k > 0 { assert r.sections[..|o.sections|][k - 1] == o.sections[k - 1]; }
          StaysExplained(classify, o.sections, r.sections, segs, longer, k);
        } else {
          assert r.sections[..|o.sections|][n] == last;
        }
      }
    } else {
      var longer := segs[..n] + [segs[n] + [line]];
      LineTouchesLast(classify, o, line);
      LineExplains(classify, last, if n == 0 then None else o.sections[n - 1].page, segs[n], line, o.page);
      forall k: nat | k < |longer| ensures Explained(classify, r.sections, longer, k) {
        if k < n {
          StaysExplained(classify, o.sections, r.sections, segs, longer, k);
        } else {
          LastStaysHeaded(classify, o.sections, r.sections, segs[n], line);
        }
      }
    }
  }

  lemma LastStaysHeaded(classify: Classifier, a: seq<Section>, b: seq<Section>, seg: seq<string>, line: string)
    requires |a| == |b| > 0 && b[..|a| - 1] == a[..|a| - 1]
    requires b[|a| - 1].headingPath == a[|a| - 1].headingPath && b[|a| - 1].number == a[|a| - 1].number
    ensures |a| > 1 ==> b[|a| - 2] == a[|a| - 2]
    ensures |a| > 1 && Headed(classify, a[|a| - 1], a[|a| - 2].headingPath, seg) ==>
              Headed(classify, b[|a| - 1], b[|a| - 2].headingPath, seg + [line])
  {
    if |a| > 1 { assert b[..|a| - 1][|a| - 2] == a[..|a| - 1][|a| - 2]; }
  }

  lemma FlattenExtends(front: seq<seq<string>>, seg: seq<string>, line: string)
    ensures Flatten(front + [seg + [line]]) == Flatten(front + [seg]) + [line]
  {
    hide Flatten;
    FlattenJoins(front, [seg]);
    FlattenJoins(front, [seg + [line]]);
    FlattenOne(seg);
    FlattenOne(seg + [line]);
    Associates(Flatten(front), seg, [line]);
  }

  lemma Associates(a: seq<string>, b: seq<string>, c: seq<string>)
    ensures a + (b + c) == (a + b) + c
  {
  }

  lemma FlattenAdds(segs: seq<seq<string>>, line: string)
    ensures Flatten(segs + [[line]]) == Flatten(segs) + [line]
  {
    hide Flatten;
    FlattenJoins(segs, [[line]]);
    FlattenOne([line]);
  }

  lemma LastApart(segs: seq<seq<string>>)
    requires segs != []
    ensures segs[..|segs| - 1] + [segs[|segs| - 1]] == segs
  {
  }

  lemma FlattenGrows(segs: seq<seq<string>>, line: string)
    requires segs != []
    ensures Flatten(segs[..|segs| - 1] + [segs[|segs| - 1] + [line]]) == Flatten(segs) + [line]
  {
    hide *;
    FlattenExtends(segs[..|segs| - 1], segs[|segs| - 1], line);
    LastApart(segs);
  }

  ghost predicate HeadsOnly(classify: Classifier, segs: seq<seq<string>>) {
    forall k, i :: 0 <= k < |segs| && 0 < i < |segs[k]| ==> !classify(segs[k][i]).Heading?
  }

  lemma HeadsGrow(classify: Classifier, segs: seq<seq<string>>, line: string)
    requires segs != [] && HeadsOnly(classify, segs)
    ensures HeadsOnly(classify, segs + [[line]])
    ensures !classify(line).Heading? ==> HeadsOnly(classify, segs[..|segs| - 1] + [segs[|segs| - 1] + [line]])
  {
  }

  /** The stretches are the document, and none but their first lines are headings. */
  lemma {:induction false} SegmentsAreTheLines(classify: Classifier, lines: seq<string>)
    ensures Flatten(Segments(classify, lines)) == lines && HeadsOnly(classify, Segments(classify, lines))
  {
    hide Flatten, HeadsOnly;
    if lines == [] {
      NoLines(classify);
    } else {
      var most, line := lines[..|lines| - 1], lines[|lines| - 1];
      SegmentsAreTheLines(classify, most);
      FlattenAdds(Segments(classify, most), line);
      FlattenGrows(Segments(classify, most), line);
      HeadsGrow(classify, Segments(classify, most), line);
      assert lines == most + [line];
    }
  }

  lemma NoLines(classify: Classifier)
    ensures Flatten<string>([[]]) == [] && HeadsOnly(classify, [[]])
  {
    FlattenOne([]);
  }

  // ---- heading paths ----

  /** The depths of the headings, in order. */
  function Depths(classify: Classifier, lines: seq<string>): seq<nat> {
    if lines == [] then [] else
      var last := classify(lines[|lines| - 1]);
      Depths(classify, lines[..|lines| - 1]) + if last.Heading? then [last.depth] else []
  }

  /** No heading is more than one level below the one before it. */
  ghost predicate NoLevelSkipped(depths: seq<nat>) {
    && (depths != [] ==> depths[0] <= 1)
    && forall i, j :: 0 <= i && j == i + 1 && j < |depths| ==> depths[j] <= depths[i] + 1
  }

  /** Every heading's path is as long as its depth. */
  ghost predicate PathsMatch(sections: seq<Section>, depths: seq<nat>) {
    |sections| == |depths| + 1 && forall i :: 0 <= i < |depths| ==> |sections[i + 1].headingPath| == depths[i]
  }

  lemma {:induction false} OutlineShape(classify: Classifier, lines: seq<string>)
    ensures var o := ReadLines(classify, lines);
            && |o.sections| == |Depths(classify, lines)| + 1
            && o.sections[|o.sections| - 1].headingPath == o.stack
            && (Depths(classify, lines) == [] ==> o.stack == [])
  {
    if lines != [] { OutlineShape(classify, lines[..|lines| - 1]); }
  }

  /** A path lists one title per level exactly when the document never skips a level on the way down. */
  lemma {:induction false} PathsMatchExactlyWhenNoLevelSkipped(classify: Classifier, lines: seq<string>)
    requires SaneClassifier(classify)
    ensures PathsMatch(ReadLines(classify, lines).sections, Depths(classify, lines)) <==>
              NoLevelSkipped(Depths(classify, lines))
  {
    hide ReadLine;
    if lines != [] {
      var most, last := lines[..|lines| - 1], lines[|lines| - 1];
      PathsMatchExactlyWhenNoLevelSkipped(classify, most);
      OutlineShape(classify, most);
      PathStep(classify, ReadLines(classify, most), Depths(classify, most), last);
    }
  }

  lemma PathStep(classify: Classifier, o: Outline, depths: seq<nat>, line: string)
    requires SaneClassifier(classify) && |o.sections| == |depths| + 1
    requires o.sections[|o.sections| - 1].headingPath == o.stack && (depths == [] ==> o.stack == [])
    requires PathsMatch(o.sections, depths) <==> NoLevelSkipped(depths)
    ensures var more := depths + if classify(line).Heading? then [classify(line).depth] else [];
            PathsMatch(ReadLine(classify, o, line).sections, more) <==> NoLevelSkipped(more)
  {
    hide PathsMatch, NoLevelSkipped;
    if classify(line).Heading? {
      var depth := classify(line).depth;
      var s := ReadLine(classify, o, line).sections[|o.sections|];
      PathsMatchOneMore(o.sections, s, depths, depth);
      NoLevelSkippedOneMore(depths, depth);
      if PathsMatch(o.sections, depths) && depths != [] { LastMatches(o.sections, depths); }
    } else {
      SamePaths(o.sections, ReadLine(classify, o, line).sections, depths);
      assert depths + [] == depths;
    }
  }

  lemma LastMatches(sections: seq<Section>, depths: seq<nat>)
    requires PathsMatch(sections, depths) && depths != []
    ensures |sections[|depths|].headingPath| == depths[|depths| - 1]
  {
    assert |sections[|depths| - 1 + 1].headingPath| == depths[|depths| - 1];
  }

  lemma PathsMatchOneMore(sections: seq<Section>, s: Section, depths: seq<nat>, depth: nat)
    requires |sections| == |depths| + 1
    ensures PathsMatch(sections + [s], depths + [depth]) <==> PathsMatch(sections, depths) && |s.headingPath| == depth
  {
    if PathsMatch(sections + [s], depths + [depth]) {
      assert (sections + [s])[|depths| + 1] == s && (depths + [depth])[|depths|] == depth;
      forall i | 0 <= i < |depths| ensures |sections[i + 1].headingPath| == depths[i] {
        assert (depths + [depth])[i] == depths[i] && (sections + [s])[i + 1] == sections[i + 1];
      }
    }
  }

  lemma NoLevelSkippedOneMore(depths: seq<nat>, depth: nat)
    ensures NoLevelSkipped(depths + [depth]) <==>
              NoLevelSkipped(depths) && depth <= (if depths == [] then 0 else depths[|depths| - 1]) + 1
  {
    var more := depths + [depth];
    if NoLevelSkipped(more) {
      forall i, j | 0 <= i && j == i + 1 && j < |depths| ensures depths[j] <= depths[i] + 1 {
        assert more[j] <= more[i] + 1;
      }
      if depths != [] { assert more[|depths|] <= more[|depths| - 1] + 1; }
    }
  }

  lemma SamePaths(a: seq<Section>, b: seq<Section>, depths: seq<nat>)
    requires |a| == |b| && forall i :: 0 <= i < |a| ==> a[i].headingPath == b[i].headingPath
    ensures PathsMatch(a, depths) <==> PathsMatch(b, depths)
  {
  }

  // ---- chunks and their identifiers ----

  datatype Locator = Locator(page: Option<nat>, section: string, paragraph: Option<nat>)
  {
    function Parts(): seq<string> {
      (if page.Some? then ["p" + Digits(page.value)] else [])
      + (if section != "" then ["s" + section] else [])
      + if paragraph.Some? then ["para" + Digits(paragraph.value)] else []
    }

    function AsRef(): string {
      if Parts() == [] then "loc" else Join("/", Parts())
    }
  }

  datatype Chunk = Chunk(id: string, locator: Locator, headingPath: seq<string>, text: string, tokenCount: nat,
                         topics: seq<string>, schemes: seq<string>, categories: seq<string>)

  /** A locator used for the `n`th time. */
  function Suffixed(ref: string, n: nat): string {
    if n <= 1 then ref else ref + ("-" + Digits(n))
  }

  /** Length of the part before the first dash. */
  function DashAt(s: string): nat {
    if s == "" || s[0] == '-' then 0 else 1 + DashAt(s[1..])
  }

  lemma {:induction false} DashEnds(a: string, rest: string)
    requires '-' !in a && (rest == "" || rest[0] == '-')
    ensures DashAt(a + rest) == |a|
  {
    if a == "" {
      assert a + rest == rest;
    } else {
      assert (a + rest)[1..] == a[1..] + rest;
      DashEnds(a[1..], rest);
    }
  }

  lemma SuffixedParts(a: string, m: nat)
    requires '-' !in a && m > 0
    ensures var s := Suffixed(a, m);
            && DashAt(s) == |a| <= |s| && s[..|a|] == a
            && s[|a|..] == if m == 1 then "" else "-" + Digits(m)
  {
    hide Digits, DashAt;
    DashEnds(a, if m == 1 then "" else "-" + Digits(m));
    assert a + "" == a;
  }

  lemma SuffixedIsInjective(a: string, m: nat, b: string, n: nat)
    requires '-' !in a && '-' !in b && m > 0 && n > 0 && Suffixed(a, m) == Suffixed(b, n)
    ensures a == b && m == n
  {
    hide Digits, Parse, Suffixed, DashAt;
    SuffixedParts(a, m);
    SuffixedParts(b, n);
    var tail := Suffixed(a, m)[|a|..];
    if m > 1 && n > 1 {
      assert Digits(m) == tail[1..] == Digits(n);
      ParseDigits(m);
      ParseDigits(n);
    }
  }

  lemma RefHasNoDash(l: Locator)
    requires '-' !in l.section
    ensures '-' !in l.AsRef()
  {
    hide Digits;
    if l.page.Some? { DigitsHaveNoDash(l.page.value); }
    if l.paragraph.Some? { DigitsHaveNoDash(l.paragraph.value); }
    JoinHasNoDash("/", l.Parts());
  }

  lemma DigitsHaveNoDash(n: nat)
    ensures '-' !in Digits(n)
  {
  }

  lemma {:induction false} JoinHasNoDash(separator: string, parts: seq<string>)
    requires '-' !in separator && forall i :: 0 <= i < |parts| ==> '-' !in parts[i]
    ensures '-' !in Join(separator, parts)
  {
    if |parts| > 1 { JoinHasNoDash(separator, parts[..|parts| - 1]); }
  }

  // ---- a locator's text tells the locator ----

  ghost predicate Plain(parts: seq<string>) {
    forall i :: 0 <= i < |parts| ==> '/' !in parts[i] && parts[i] != ""
  }

  lemma SlashInside(a: string, x: string, k: int)
    requires |a| < k < |a + ("/" + x)| && (a + ("/" + x))[k] == '/'
    ensures '/' in x
  {
    assert x[k - |a| - 1] == '/';
  }

  /** The last part is what follows the last slash. */
  lemma LastPartTells(a: string, x: string, b: string, y: string)
    requires '/' !in x && '/' !in y && a + ("/" + x) == b + ("/" + y)
    ensures a == b && x == y
  {
    var s := a + ("/" + x);
    assert s[|a|] == '/' && s[|b|] == '/';
    if |a| < |b| { SlashInside(a, x, |b|); }
    if |b| < |a| { SlashInside(b, y, |a|); }
    assert s[..|a|] == a && s[..|b|] == b && s[|a| + 1..] == x && s[|b| + 1..] == y;
  }

  lemma {:induction false} JoinTells(a: seq<string>, b: seq<string>)
    requires Plain(a) && Plain(b) && Join("/", a) == Join("/", b)
    ensures a == b
  {
    if |a| > 1 && |b| > 1 {
      var m, n := |a| - 1, |b| - 1;
      LastPartTells(Join("/", a[..m]), a[m], Join("/", b[..n]), b[n]);
      JoinTells(a[..m], b[..n]);
      assert a == a[..m] + [a[m]] && b == b[..n] + [b[n]];
    } else if |a| > 1 {
      SeveralHaveSlash(a);
    } else if |b| > 1 {
      SeveralHaveSlash(b);
    }
  }

  lemma SeveralHaveSlash(parts: seq<string>)
    requires |parts| > 1
    ensures '/' in Join("/", parts)
  {
    var m := |parts| - 1;
    assert Join("/", parts)[|Join("/", parts[..m])|] == '/';
  }

  lemma PartsArePlain(l: Locator)
    requires '/' !in l.section
    ensures Plain(l.Parts())
  {
    hide Digits;
    if l.page.Some? { DigitsAreDigits(l.page.value); }
    if l.paragraph.Some? { DigitsAreDigits(l.paragraph.value); }
  }

  lemma DigitsAreDigits(n: nat)
    ensures '/' !in Digits(n) && IsDigit(Digits(n)[0])
  {
  }

  lemma DigitsTell(m: nat, n: nat)
    requires Digits(m) == Digits(n)
    ensures m == n
  {
    ParseDigits(m);
    ParseDigits(n);
  }

  /** Two locators with the same text are the same, and none goes without one. */
  lemma RefTellsLocator(l: Locator, m: Locator)
    requires '/' !in l.section && '/' !in m.section
    ensures l.AsRef() == m.AsRef() <==> l == m
    ensures l.AsRef() != ""
  {
    hide Digits, Join, Plain, Locator.Parts;
    if l.Parts() != [] {
      PartsArePlain(l);
      JoinStartsWithFirst(l.Parts());
      StartsWithSomething(l.Parts());
    }
    if l.AsRef() == m.AsRef() { SameRefSameLocator(l, m); }
  }

  lemma StartsWithSomething(parts: seq<string>)
    requires parts != [] && Plain(parts)
    ensures parts[0] != ""
  {
  }

  lemma SameRefSameLocator(l: Locator, m: Locator)
    requires '/' !in l.section && '/' !in m.section && l.AsRef() == m.AsRef()
    ensures l == m
  {
    hide Digits, Join, Plain, Locator.Parts;
    PartsArePlain(l);
    PartsArePlain(m);
    PartsAreNotLoc(l);
    PartsAreNotLoc(m);
    JoinTells(l.Parts(), m.Parts());
    PartsTell(l, m);
  }

  lemma PartsAreNotLoc(l: Locator)
    ensures l.Parts() != [] ==> Join("/", l.Parts()) != "loc"
  {
    hide Digits, Join, Locator.Parts;
    PartsHold(l);
    if l.Parts() != [] {
      JoinStartsWithFirst(l.Parts());
      var x := l.Parts()[0];
      assert x in l.Parts() && (x[0] == 'p' || x[0] == 's') && Join("/", l.Parts())[0] == x[0];
    }
  }

  lemma {:induction false} JoinStartsWithFirst(parts: seq<string>)
    requires parts != []
    ensures parts[0] <= Join("/", parts)
  {
    if |parts| > 1 { JoinStartsWithFirst(parts[..|parts| - 1]); }
  }

  lemma PartsTell(l: Locator, m: Locator)
    requires l.Parts() == m.Parts()
    ensures l == m
  {
    hide Digits;
    var a, b := l.Parts(), m.Parts();
    KindsOfParts(l);
    KindsOfParts(m);
    assert |a| == |b|;
    if l.page.Some? && m.page.Some? {
      assert Digits(l.page.value) == a[0][1..] == Digits(m.page.value);
      DigitsTell(l.page.value, m.page.value);
    }
    if l.section != "" && m.section != "" {
      var i := if l.page.Some? then 1 else 0;
      assert l.section == a[i][1..] == m.section;
    }
    if l.paragraph.Some? && m.paragraph.Some? {
      assert Digits(l.paragraph.value) == a[|a| - 1][4..] == Digits(m.paragraph.value);
      DigitsTell(l.paragraph.value, m.paragraph.value);
    }
  }

  /** A page starts with `p` and a digit, a section with `s`, a paragraph with `pa`. */
  lemma KindsOfParts(l: Locator)
    ensures var a := l.Parts();
            && (l.page.Some? <==> exists x :: x in a && |x| > 1 && x[0] == 'p' && IsDigit(x[1]))
            && (l.section != "" <==> exists x :: x in a && |x| > 1 && x[0] == 's')
            && (l.paragraph.Some? <==> exists x :: x in a && |x| > 1 && x[0] == 'p' && x[1] == 'a')
  {
    hide Digits, Locator.Parts;
    PartsHold(l);
    if l.page.Some? {
      var x := "p" + Digits(l.page.value);
      DigitsAreDigits(l.page.value);
      assert x in l.Parts() && |x| > 1 && x[0] == 'p' && x[1] == Digits(l.page.value)[0];
    }
    if l.section != "" {
      var x := "s" + l.section;
      assert x in l.Parts() && |x| > 1 && x[0] == 's';
    }
    if l.paragraph.Some? {
      var x := "para" + Digits(l.paragraph.value);
      assert x in l.Parts() && |x| > 1 && x[0] == 'p' && x[1] == 'a';
    }
  }

  lemma PartsHold(l: Locator)
    ensures forall x :: x in l.Parts() <==>
              || (l.page.Some? && x == "p" + Digits(l.page.value)) || (l.section != "" && x == "s" + l.section)
              || (l.paragraph.Some? && x == "para" + Digits(l.paragraph.value))
  {
    hide Digits;
  }

  function Uses(refs: seq<string>, ref: string): nat {
    if refs == [] then 0 else Uses(refs[..|refs| - 1], ref) + if refs[|refs| - 1] == ref then 1 else 0
  }

  /** Each chunk is named by its locator, numbered among the chunks that share it. */
  ghost predicate Numbered(documentId: string, chunks: seq<Chunk>, refs: seq<string>) {
    |refs| == |chunks| && forall i :: 0 <= i < |chunks| ==> NumberedAt(documentId, chunks[i], refs, i)
  }

  ghost predicate NumberedAt(documentId: string, chunk: Chunk, refs: seq<string>, i: nat)
    requires i < |refs|
  {
    && refs[i] == chunk.locator.AsRef() && '-' !in refs[i]
    && chunk.id == documentId + ("#" + Suffixed(refs[i], Uses(refs[..i + 1], refs[i])))
  }

  lemma {:induction false} UsesMonotone(refs: seq<string>, i: nat, j: nat, ref: string)
    requires i <= j <= |refs|
    ensures Uses(refs[..i], ref) <= Uses(refs[..j], ref)
    decreases j
  {
    if i < j {
      assert refs[..j][..j - 1] == refs[..j - 1];
      UsesMonotone(refs, i, j - 1, ref);
    }
  }

  lemma UsesUpTo(refs: seq<string>, i: nat)
    requires i < |refs|
    ensures Uses(refs[..i + 1], refs[i]) == Uses(refs[..i], refs[i]) + 1
  {
    assert refs[..i + 1][..i] == refs[..i];
  }

  /** Chunks sharing a locator, and chunks whose locator looks like another's numbered one, still differ in name. */
  lemma IdsAreDistinct(documentId: string, chunks: seq<Chunk>, refs: seq<string>, i: nat, j: nat)
    requires Numbered(documentId, chunks, refs) && i < j < |chunks|
    ensures chunks[i].id != chunks[j].id
  {
    hide Uses, Suffixed;
    assert NumberedAt(documentId, chunks[i], refs, i) && NumberedAt(documentId, chunks[j], refs, j);
    UsesUpTo(refs, i);
    UsesUpTo(refs, j);
    UsesMonotone(refs, i + 1, j, refs[j]);
    var m, n := Uses(refs[..i + 1], refs[i]), Uses(refs[..j + 1], refs[j]);
    if Suffixed(refs[i], m) == Suffixed(refs[j], n) { SuffixedIsInjective(refs[i], m, refs[j], n); }
    assert chunks[i].id[|documentId| + 1..] == Suffixed(refs[i], m);
    assert chunks[j].id[|documentId| + 1..] == Suffixed(refs[j], n);
  }

  // ---- the whole document ----

  function TextsOf(chunks: seq<Chunk>): seq<string> {
    seq(|chunks|, i requires 0 <= i < |chunks| => chunks[i].text)
  }

  /** The chunk carries its section's heading, tags and page, and counts its own words. */
  ghost predicate CutFrom(chunk: Chunk, s: Section) {
    && chunk.headingPath == s.headingPath && chunk.topics == s.topics && chunk.schemes == s.schemes
    && chunk.categories == s.categories && chunk.locator.page == s.page && chunk.locator.section == s.number
    && chunk.tokenCount == |Words(chunk.text)|
  }

  /** How often each locator has been used so far. */
  ghost predicate Tallies(seen: map<string, nat>, refs: seq<string>) {
    forall ref :: Uses(refs, ref) == if ref in seen then seen[ref] else 0
  }

  function NewChunk(documentId: string, s: Section, piece: string, paragraph: Option<nat>, used: nat): (c: Chunk)
    ensures c.text == piece && c.locator == Locator(s.page, s.number, paragraph)
    ensures c.id == documentId + ("#" + Suffixed(c.locator.AsRef(), used))
    ensures CutFrom(c, s)
  {
    hide Words, Suffixed;
    var locator := Locator(s.page, s.number, paragraph);
    Chunk(documentId + ("#" + Suffixed(locator.AsRef(), used)), locator, s.headingPath, piece, |Words(piece)|,
          s.topics, s.schemes, s.categories)
  }

  lemma TextsOneMore(chunks: seq<Chunk>, chunk: Chunk)
    ensures TextsOf(chunks + [chunk]) == TextsOf(chunks) + [chunk.text]
  {
  }

  /** The chunk comes from the section and keeps to the limit, or is one of its paragraphs. */
  ghost predicate IsCut(chunk: Chunk, s: Section, maxWords: int) {
    CutFrom(chunk, s) && Limited(chunk.text, s.lines, maxWords)
  }

  /** The chunks are the packed paragraphs of the section, counted if there are several. */
  ghost predicate IsCutOf(cut: seq<Chunk>, s: Section, maxWords: int) {
    && (exists groups :: Packed(Paragraphs(s.lines), groups, maxWords) && TextsOf(cut) == Texts(groups))
    && forall i :: 0 <= i < |cut| ==>
         IsCut(cut[i], s, maxWords) && cut[i].locator.paragraph == if |cut| > 1 then Some(i) else None
  }

  method CutSection(documentId: string, s: Section, maxWords: int, before: seq<Chunk>, seenBefore: map<string, nat>,
                    ghost refsBefore: seq<string>)
    returns (chunks: seq<Chunk>, seen: map<string, nat>, ghost refs: seq<string>, ghost cut: seq<Chunk>)
    requires '-' !in s.number && Numbered(documentId, before, refsBefore) && Tallies(seenBefore, refsBefore)
    ensures chunks == before + cut && Numbered(documentId, chunks, refs) && Tallies(seen, refs)
    ensures IsCutOf(cut, s, maxWords) && WordsOf(TextsOf(chunks)) == WordsOf(TextsOf(before)) + WordsOf(s.lines)
  {
    hide *;
    var pieces, groups := SplitParagraphs(s.lines, maxWords);
    chunks, seen, refs, cut := before, seenBefore, refsBefore, [];
    NoTexts();
    for k := 0 to |pieces|
      invariant chunks == before + cut && Numbered(documentId, chunks, refs) && Tallies(seen, refs)
      invariant |cut| == k && TextsOf(cut) == pieces[..k]
      invariant forall i :: 0 <= i < k ==>
                  IsCut(cut[i], s, maxWords) && cut[i].locator.paragraph == if |pieces| > 1 then Some(i) else None
    {
      var paragraph := if |pieces| > 1 then Some(k) else None;
      var ref := Locator(s.page, s.number, paragraph).AsRef();
      var used := (if ref in seen then seen[ref] else 0) + 1;
      RefHasNoDash(Locator(s.page, s.number, paragraph));
      OneMoreUse(seen, refs, ref, used);
      seen := seen[ref := used];
      var chunk := NewChunk(documentId, s, pieces[k], paragraph, used);
      OneMoreNumbered(documentId, chunks, refs, chunk, ref, used);
      TextsOneMore(cut, chunk);
      MakesCut(chunk, s, maxWords);
      assert pieces[..k] + [pieces[k]] == pieces[..k + 1];
      chunks, refs, cut := chunks + [chunk], refs + [ref], cut + [chunk];
    }
    assert pieces[..|pieces|] == pieces;
    MakesCutOf(cut, s, maxWords, groups);
    TextsJoin(before, cut);
    WordsOfJoins(TextsOf(before), pieces);
  }

  lemma NoTexts()
    ensures TextsOf([]) == []
  {
  }

  lemma TextsJoin(a: seq<Chunk>, b: seq<Chunk>)
    ensures TextsOf(a + b) == TextsOf(a) + TextsOf(b)
  {
  }

  lemma MakesCutOf(cut: seq<Chunk>, s: Section, maxWords: int, groups: seq<seq<string>>)
    requires Packed(Paragraphs(s.lines), groups, maxWords) && TextsOf(cut) == Texts(groups)
    requires forall i :: 0 <= i < |cut| ==>
               IsCut(cut[i], s, maxWords) && cut[i].locator.paragraph == if |cut| > 1 then Some(i) else None
    ensures IsCutOf(cut, s, maxWords)
  {
    hide Packed, Texts, TextsOf, IsCut;
  }

  lemma MakesCut(chunk: Chunk, s: Section, maxWords: int)
    requires CutFrom(chunk, s) && Limited(chunk.text, s.lines, maxWords)
    ensures IsCut(chunk, s, maxWords)
  {
    hide CutFrom, Limited;
  }

  lemma OneMoreUse(seen: map<string, nat>, refs: seq<string>, ref: string, used: nat)
    requires Tallies(seen, refs) && used == (if ref in seen then seen[ref] else 0) + 1
    ensures Tallies(seen[ref := used], refs + [ref]) && Uses(refs + [ref], ref) == used
  {
    assert (refs + [ref])[..|refs|] == refs;
    assert forall r :: Uses(refs + [ref], r) == Uses(refs, r) + if r == ref then 1 else 0;
  }

  lemma OneMoreNumbered(documentId: string, chunks: seq<Chunk>, refs: seq<string>, chunk: Chunk, ref: string, used: nat)
    requires Numbered(documentId, chunks, refs) && ref == chunk.locator.AsRef() && '-' !in ref
    requires Uses(refs + [ref], ref) == used && chunk.id == documentId + ("#" + Suffixed(ref, used))
    ensures Numbered(documentId, chunks + [chunk], refs + [ref])
  {
    hide Uses, Suffixed;
    var more := refs + [ref];
    forall i | 0 <= i < |chunks| + 1 ensures NumberedAt(documentId, (chunks + [chunk])[i], more, i) {
      if i < |chunks| {
        assert NumberedAt(documentId, chunks[i], refs, i);
        assert more[..i + 1] == refs[..i + 1];
      } else {
        assert more[..i + 1] == more;
      }
    }
  }

  /**
   The chunks together hold exactly the words of the document's body lines, in order; they are the cuts of the sections,
   one after the other; each is named by its locator, numbered from the second use on; and no two share a name.
   */
  method BuildChunks(documentId: string, classify: Classifier, lines: seq<string>, maxWords: int)
    returns (chunks: seq<Chunk>, ghost refs: seq<string>, ghost cuts: seq<seq<Chunk>>)
    requires SaneClassifier(classify)
    ensures WordsOf(TextsOf(chunks)) == WordsOf(BodyLines(classify, lines))
    ensures chunks == Flatten(cuts) && |cuts| == |Sections(classify, lines)|
    ensures forall n :: 0 <= n < |cuts| ==> IsCutOf(cuts[n], Sections(classify, lines)[n], maxWords)
    ensures Numbered(documentId, chunks, refs)
    ensures forall i, j :: 0 <= i < j < |chunks| ==> chunks[i].id != chunks[j].id
  {
    hide Words, WordsOf, Uses, Suffixed, Tallies, Sections, IsCutOf, BodyLines;
    var sections := ParseSections(classify, lines);
    NumbersAreDashFree(classify, lines);
    chunks := [];
    var seen: map<string, nat> := map[];
    refs, cuts := [], [];
    NothingTallied();
    assert sections[..0] == [] && TextsOf([]) == [];
    for n := 0 to |sections|
      invariant Numbered(documentId, chunks, refs) && Tallies(seen, refs)
      invariant WordsOf(TextsOf(chunks)) == WordsOf(LinesOf(sections[..n]))
      invariant chunks == Flatten(cuts) && |cuts| == n
      invariant forall i :: 0 <= i < n ==> IsCutOf(cuts[i], sections[i], maxWords)
    {
      ghost var cut;
      chunks, seen, refs, cut := CutSection(documentId, sections[n], maxWords, chunks, seen, refs);
      assert sections[..n + 1][..n] == sections[..n] && (cuts + [cut])[..n] == cuts;
      WordsOfJoins(LinesOf(sections[..n]), sections[n].lines);
      cuts := cuts + [cut];
    }
    assert sections[..|sections|] == sections;
    SectionsKeepWords(classify, lines);
    forall i, j | 0 <= i < j < |chunks| ensures chunks[i].id != chunks[j].id {
      IdsAreDistinct(documentId, chunks, refs, i, j);
    }
  }

  lemma NothingTallied()
    ensures Tallies(map[], [])
  {
  }

  predicate DashFree(sections: seq<Section>) { forall i :: 0 <= i < |sections| ==> '-' !in sections[i].number }

  lemma NumbersAreDashFree(classify: Classifier, lines: seq<string>)
    requires SaneClassifier(classify)
    ensures DashFree(Sections(classify, lines))
  {
    hide AllBlank, ReadLines;
    ReadNumbersAreDashFree(classify, lines);
    NonBlankIsDashFree(ReadLines(classify, lines).sections);
  }

  lemma {:induction false} ReadNumbersAreDashFree(classify: Classifier, lines: seq<string>)
    requires SaneClassifier(classify)
    ensures DashFree(ReadLines(classify, lines).sections)
  {
    hide ReadLine, DashFree;
    if lines == [] {
      assert DashFree(EMPTY_OUTLINE.sections) by { OneDashFree(EMPTY_OUTLINE.sections); }
    } else {
      ReadNumbersAreDashFree(classify, lines[..|lines| - 1]);
      ReadLineIsDashFree(classify, ReadLines(classify, lines[..|lines| - 1]), lines[|lines| - 1]);
    }
  }

  lemma OneDashFree(sections: seq<Section>)
    requires |sections| == 1 && sections[0].number == ""
    ensures DashFree(sections)
  {
  }

  lemma ReadLineIsDashFree(classify: Classifier, o: Outline, line: string)
    requires SaneClassifier(classify) && o.sections != [] && DashFree(o.sections)
    ensures DashFree(ReadLine(classify, o, line).sections)
  {
  }

  lemma {:induction false} NonBlankIsDashFree(sections: seq<Section>)
    requires DashFree(sections)
    ensures DashFree(NonBlank(sections))
  {
    hide AllBlank;
    if sections != [] { NonBlankIsDashFree(sections[..|sections| - 1]); }
  }
}
