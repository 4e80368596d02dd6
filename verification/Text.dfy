/** Python string operations the modelled code relies on: `strip`, `split`, `in`. */
module Text {

  /** `str.isspace`, which is also what `\s` matches. */
  predicate IsSpace(c: char) {
    var n := c as int;
    || 0x09 <= n <= 0x0d || 0x1c <= n <= 0x20 || n == 0x85 || n == 0xa0 || n == 0x1680 || 0x2000 <= n <= 0x200a
    || n == 0x2028 || n == 0x2029 || n == 0x202f || n == 0x205f || n == 0x3000
  }

  predicate Blank(s: string) { forall i :: 0 <= i < |s| ==> IsSpace(s[i]) }

  predicate Solid(s: string) { forall i :: 0 <= i < |s| ==> !IsSpace(s[i]) }

  function StripLeft(s: string): (t: string)
    ensures |t| <= |s| && t == s[|s| - |t|..] && Blank(s[..|s| - |t|]) && (t != "" ==> !IsSpace(t[0]))
  {
    hide IsSpace;
    if s != "" && IsSpace(s[0]) then StripLeft(s[1..]) else s
  }

  function StripRight(s: string): (t: string)
    ensures |t| <= |s| && t == s[..|t|] && Blank(s[|t|..]) && (t != "" ==> !IsSpace(t[|t| - 1]))
  {
    hide IsSpace;
    if s != "" && IsSpace(s[|s| - 1]) then StripRight(s[..|s| - 1]) else s
  }

  function Strip(s: string): string { StripRight(StripLeft(s)) }

  /** `token in text`. */
  predicate Occurs(token: string, text: string) {
    token <= text || (text != "" && Occurs(token, text[1..]))
  }

  /** `text[i:i + len(token)] == token`. */
  predicate StandsAt(token: string, text: string, i: nat) {
    i + |token| <= |text| && text[i..i + |token|] == token
  }

  lemma StandsInFront(token: string, text: string)
    ensures StandsAt(token, text, 0) <==> token <= text
  {
  }

  lemma StandsLater(token: string, text: string, i: nat)
    requires text != ""
    ensures StandsAt(token, text, i + 1) <==> StandsAt(token, text[1..], i)
  {
    if i + |token| <= |text| - 1 { assert text[1..][i..i + |token|] == text[i + 1..i + 1 + |token|]; }
  }

  /** The token is a slice of the text, wherever it stands. */
  lemma {:induction false} OccursExactlyWhenSlice(token: string, text: string)
    ensures Occurs(token, text) <==> exists i: nat :: StandsAt(token, text, i)
  {
    hide StandsAt;
    StandsInFront(token, text);
    if text == "" {
      if i: nat :| StandsAt(token, text, i) { StandsInEmpty(token, i); }
    } else {
      OccursExactlyWhenSlice(token, text[1..]);
      if i: nat :| StandsAt(token, text[1..], i) { StandsLater(token, text, i); }
      if i: nat :| i > 0 && StandsAt(token, text, i) { StandsLater(token, text, i - 1); }
    }
  }

  lemma StandsInEmpty(token: string, i: nat)
    ensures StandsAt(token, "", i) ==> i == 0
  {
  }

  /** Length of the longest prefix without whitespace. */
  function SolidPrefix(s: string): (n: nat)
    ensures n <= |s| && Solid(s[..n]) && (n < |s| ==> IsSpace(s[n]))
  {
    if s == "" || IsSpace(s[0]) then 0 else 1 + SolidPrefix(s[1..])
  }

  /** `text.split()`. */
  function Words(s: string): (ws: seq<string>)
    ensures forall i :: 0 <= i < |ws| ==> ws[i] != "" && Solid(ws[i])
    decreases |s|
  {
    if s == "" then []
    else if IsSpace(s[0]) then Words(s[1..])
    else var n := SolidPrefix(s); [s[..n]] + Words(s[n..])
  }

  lemma {:induction false} SolidPrefixStops(a: string, b: string)
    requires b == "" || IsSpace(b[0])
    ensures SolidPrefix(a + b) == SolidPrefix(a)
  {
    if a == "" {
      assert a + b == b;
    } else {
      assert (a + b)[1..] == a[1..] + b;
      SolidPrefixStops(a[1..], b);
    }
  }

  lemma WordsSkipOne(s: string)
    requires s != "" && IsSpace(s[0])
    ensures Words(s) == Words(s[1..])
  {
    hide IsSpace;
  }

  lemma WordsFirst(s: string)
    requires s != "" && !IsSpace(s[0])
    ensures SolidPrefix(s) > 0 && Words(s) == [s[..SolidPrefix(s)]] + Words(s[SolidPrefix(s)..])
  {
    hide IsSpace;
  }

  /** Words never run across whitespace. */
  lemma {:induction false} WordsSplitAtSpace(a: string, b: string)
    requires b == "" || IsSpace(b[0])
    ensures Words(a + b) == Words(a) + Words(b)
    decreases |a|
  {
    hide SolidPrefix, Words, IsSpace;
    if a == "" {
      assert a + b == b;
      NoWords();
    } else if IsSpace(a[0]) {
      assert (a + b)[1..] == a[1..] + b;
      WordsSkipOne(a);
      WordsSkipOne(a + b);
      WordsSplitAtSpace(a[1..], b);
    } else {
      var n := SolidPrefix(a);
      SolidPrefixStops(a, b);
      WordsFirst(a);
      WordsFirst(a + b);
      assert (a + b)[..n] == a[..n] && (a + b)[n..] == a[n..] + b;
      WordsSplitAtSpace(a[n..], b);
    }
  }

  lemma NoWords()
    ensures Words("") == []
  {
  }

  /** A word is as long as it can be. */
  lemma SolidIsOneWord(s: string)
    requires Solid(s) && s != ""
    ensures Words(s) == [s]
  {
    var n := SolidPrefix(s);
    assert n == |s| && s[..n] == s && s[n..] == "";
  }

  lemma WordsAcrossBlank(a: string, b: string)
    requires Solid(a) && Solid(b) && a != "" && b != ""
    ensures Words(a + (" " + b)) == [a, b]
  {
    WordsSplitAtSpace(a, " " + b);
    WordsSkipBlank(" ", b);
    SolidIsOneWord(a);
    SolidIsOneWord(b);
  }

  lemma {:induction false} WordsOfBlank(s: string)
    requires Blank(s)
    ensures Words(s) == []
  {
    if s != "" { WordsOfBlank(s[1..]); }
  }

  lemma {:induction false} WordsSkipBlank(blank: string, s: string)
    requires Blank(blank)
    ensures Words(blank + s) == Words(s)
  {
    if blank == "" {
      assert blank + s == s;
    } else {
      assert (blank + s)[1..] == blank[1..] + s;
      WordsSkipBlank(blank[1..], s);
    }
  }

  lemma StripLeftKeepsWords(s: string)
    ensures Words(StripLeft(s)) == Words(s)
  {
    var blank := s[..|s| - |StripLeft(s)|];
    assert s == blank + StripLeft(s);
    WordsSkipBlank(blank, StripLeft(s));
  }

  lemma StripRightKeepsWords(s: string)
    ensures Words(StripRight(s)) == Words(s)
  {
    var blank := s[|StripRight(s)|..];
    assert s == StripRight(s) + blank;
    WordsSplitAtSpace(StripRight(s), blank);
    WordsOfBlank(blank);
  }

  /** Stripping loses no word. */
  lemma StripKeepsWords(s: string)
    ensures Words(Strip(s)) == Words(s)
  {
    hide StripLeft, StripRight, Words;
    StripLeftKeepsWords(s);
    StripRightKeepsWords(StripLeft(s));
  }
}
