/**
 * The operations of Python's `str` that the services rely on, over `seq<char>`.
 * Whitespace is the set of characters for which `str.isspace()` holds; case
 * mapping covers the ASCII letters only (Unicode case tables are not modelled).
 */
module Text {

  /** `c.isspace()` */
  predicate IsSpace(c: char) {
    c == ' ' || ('\U{0009}' <= c <= '\U{000D}') || ('\U{001C}' <= c <= '\U{001F}')
    || c == '\U{0085}' || c == '\U{00A0}' || c == '\U{1680}' || ('\U{2000}' <= c <= '\U{200A}')
    || c == '\U{2028}' || c == '\U{2029}' || c == '\U{202F}' || c == '\U{205F}' || c == '\U{3000}'
  }

  predicate AllSpace(s: string) {
    forall i | 0 <= i < |s| :: IsSpace(s[i])
  }

  predicate NoSpace(s: string) {
    forall i | 0 <= i < |s| :: !IsSpace(s[i])
  }

  /** Python's `not s.strip()`: the text is empty or whitespace only. */
  predicate IsBlank(s: string) {
    AllSpace(s)
  }

  function LowerChar(c: char): char {
    if 'A' <= c <= 'Z' then (c as int + 32) as char else c
  }

  function UpperChar(c: char): char {
    if 'a' <= c <= 'z' then (c as int - 32) as char else c
  }

  /** `s.lower()`, ASCII letters only */
  function Lower(s: string): string {
    seq(|s|, i requires 0 <= i < |s| => LowerChar(s[i]))
  }

  /** `s.upper()`, ASCII letters only */
  function Upper(s: string): string {
    seq(|s|, i requires 0 <= i < |s| => UpperChar(s[i]))
  }

  predicate StartsWith(s: string, p: string) {
    |p| <= |s| && s[..|p|] == p
  }

  /** Python's `p in s`: a plain substring test. */
  predicate Contains(s: string, p: string)
    decreases |s|
  {
    StartsWith(s, p) || (s != [] && Contains(s[1..], p))
  }

  /** `p` occurs in `s` starting at index `i`. */
  predicate OccursAt(s: string, p: string, i: int) {
    0 <= i <= |s| - |p| && s[i..i + |p|] == p
  }

  /** `Contains` is the substring relation. */
  lemma {:induction false} ContainsIff(s: string, p: string)
    ensures Contains(s, p) <==> exists i :: OccursAt(s, p, i)
    decreases |s|
  {
    if s == [] {
      if Contains(s, p) {
        assert OccursAt(s, p, 0);
      }
    } else {
      ContainsIff(s[1..], p);
      if StartsWith(s, p) {
        assert OccursAt(s, p, 0);
      }
      if exists i :: OccursAt(s, p, i) {
        var i :| OccursAt(s, p, i);
        if i > 0 {
          assert s[1..][i - 1..i - 1 + |p|] == s[i..i + |p|];
          assert OccursAt(s[1..], p, i - 1);
        }
      }
      if Contains(s[1..], p) {
        var j :| OccursAt(s[1..], p, j);
        assert s[j + 1..j + 1 + |p|] == s[1..][j..j + |p|];
        assert OccursAt(s, p, j + 1);
      }
    }
  }

  /**
   * Python's `s.replace(o, n)` for a non-empty `o`: a single left-to-right
   * pass that replaces non-overlapping occurrences.
   */
  function Replace(s: string, o: string, n: string): string
    requires o != []
    decreases |s|
  {
    if |s| < |o| then s
    else if s[..|o|] == o then n + Replace(s[|o|..], o, n)
    else [s[0]] + Replace(s[1..], o, n)
  }

  /** A replacement whose pattern is absent changes nothing. */
  lemma {:induction false} ReplaceAbsent(s: string, o: string, n: string)
    requires o != [] && !Contains(s, o)
    ensures Replace(s, o, n) == s
    decreases |s|
  {
    if |s| >= |o| {
      assert !StartsWith(s, o);
      ReplaceAbsent(s[1..], o, n);
    }
  }

  /**
   * When the replacement is shorter than the pattern, the text does not grow,
   * and it is left unchanged exactly when the pattern does not occur in it.
   */
  lemma {:induction false} ReplaceShrinks(s: string, o: string, n: string)
    requires o != [] && |n| < |o|
    ensures |Replace(s, o, n)| <= |s|
    ensures Replace(s, o, n) == s <==> !Contains(s, o)
    decreases |s|
  {
    if |s| < |o| {
      ContainsIff(s, o);
    } else if s[..|o|] == o {
      ReplaceShrinks(s[|o|..], o, n);
      assert StartsWith(s, o);
    } else {
      ReplaceShrinks(s[1..], o, n);
      assert !StartsWith(s, o);
      if Replace(s, o, n) == s {
        assert Replace(s[1..], o, n) == Replace(s, o, n)[1..];
      }
    }
  }

  /** A character of a slice is a character of the whole. */
  lemma SliceChars(s: string, a: nat, b: nat)
    requires a <= b <= |s|
    ensures forall c | c in s[a..b] :: c in s
  {
    forall c | c in s[a..b] ensures c in s {
      var i :| 0 <= i < b - a && s[a..b][i] == c;
      assert s[a + i] == c;
    }
  }

  /** `s.lstrip()` */
  function LStrip(s: string): (r: string)
    ensures |r| <= |s| && r == s[|s| - |r|..]
    ensures AllSpace(s[..|s| - |r|])
    ensures r != [] ==> !IsSpace(r[0])
    decreases |s|
  {
    if s != [] && IsSpace(s[0]) then
      var r := LStrip(s[1..]);
      LeadingSpace(s, |s| - |r|);
      r
    else s
  }

  /** A whitespace character in front of a whitespace run extends it. */
  lemma LeadingSpace(s: string, k: nat)
    requires 0 < k <= |s| && IsSpace(s[0]) && AllSpace(s[1..][..k - 1])
    ensures AllSpace(s[..k]) && s[1..][k - 1..] == s[k..]
  {
    forall i | 0 <= i < k ensures IsSpace(s[..k][i]) {
      if i > 0 {
        assert s[..k][i] == s[1..][..k - 1][i - 1];
      }
    }
  }

  /** `s.rstrip()` */
  function RStrip(s: string): (r: string)
    ensures |r| <= |s| && r == s[..|r|]
    ensures AllSpace(s[|r|..])
    ensures r != [] ==> !IsSpace(r[|r| - 1])
    decreases |s|
  {
    if s != [] && IsSpace(s[|s| - 1]) then
      var r := RStrip(s[..|s| - 1]);
      TrailingSpace(s, |r|);
      r
    else s
  }

  /** A whitespace character after a whitespace run extends it. */
  lemma TrailingSpace(s: string, k: nat)
    requires k < |s| && IsSpace(s[|s| - 1]) && AllSpace(s[..|s| - 1][k..])
    ensures AllSpace(s[k..]) && s[..|s| - 1][..k] == s[..k]
  {
    forall i | 0 <= i < |s| - k ensures IsSpace(s[k..][i]) {
      if i < |s| - 1 - k {
        assert s[k..][i] == s[..|s| - 1][k..][i];
      }
    }
  }

  /** `s.strip()` */
  function Strip(s: string): string {
    RStrip(LStrip(s))
  }

  /**
   * `s.strip()` removes a whitespace prefix of length `k` and a whitespace
   * suffix, and what is left neither starts nor ends with whitespace.
   */
  lemma StripSpec(s: string) returns (k: nat, r: string)
    ensures r == Strip(s)
    ensures k + |r| <= |s| && s[k..k + |r|] == r && AllSpace(s[..k]) && AllSpace(s[k + |r|..]) &&
      (r != [] ==> !IsSpace(r[0]) && !IsSpace(r[|r| - 1]))
  {
    var t := LStrip(s);
    k := |s| - |t|;
    r := RStrip(t);
    StripParts(s, t, r, k);
  }

  /** The facts of `StripSpec`, from those of `LStrip` and `RStrip` stated on plain values. */
  lemma StripParts(s: string, t: string, r: string, k: nat)
    requires k <= |s| && t == s[k..] && AllSpace(s[..k]) && (t != [] ==> !IsSpace(t[0]))
    requires |r| <= |t| && r == t[..|r|] && AllSpace(t[|r|..]) && (r != [] ==> !IsSpace(r[|r| - 1]))
    ensures k + |r| <= |s| && s[k..k + |r|] == r
    ensures AllSpace(s[..k]) && AllSpace(s[k + |r|..])
    ensures r != [] ==> !IsSpace(r[0]) && !IsSpace(r[|r| - 1])
  {
    assert s[k + |r|..] == t[|r|..];
    if r != [] {
      assert r[0] == t[0];
    }
  }

  /** `not s.strip()` holds exactly for blank text. */
  lemma StripEmptyIffBlank(s: string)
    ensures Strip(s) == [] <==> IsBlank(s)
  {
    var k, r := StripSpec(s);
    if r == [] {
      assert s == s[..k] + s[k..];
      forall i | 0 <= i < |s| ensures IsSpace(s[i]) {
        if i < k {
          assert s[i] == s[..k][i];
        } else {
          assert s[i] == s[k + |r|..][i - k];
        }
      }
    }
  }

  predicate IsWord(w: string) {
    w != [] && NoSpace(w)
  }

  /** Length of the run of non-whitespace characters that starts `s`. */
  function WordLen(s: string): (k: nat)
    ensures k <= |s| && NoSpace(s[..k])
    ensures k < |s| ==> IsSpace(s[k])
  {
    if s == [] || IsSpace(s[0]) then 0 else 1 + WordLen(s[1..])
  }

  /** Python's `s.split()`: the maximal runs of non-whitespace characters, in order. */
  function Split(s: string): (ws: seq<string>)
    ensures forall i | 0 <= i < |ws| :: IsWord(ws[i])
    decreases |s|
  {
    var t := LStrip(s);
    if t == [] then []
    else
      var k := WordLen(t);
      assert !IsSpace(t[0]);
      var w := t[..k];
      assert IsWord(w);
      var rest := Split(t[k..]);
      WordsCons(w, rest);
      [w] + rest
  }

  lemma WordsCons(w: string, ws: seq<string>)
    requires IsWord(w) && forall i | 0 <= i < |ws| :: IsWord(ws[i])
    ensures forall i | 0 <= i < |[w] + ws| :: IsWord(([w] + ws)[i])
  {
    forall i | 0 <= i < |[w] + ws| ensures IsWord(([w] + ws)[i]) {
      if i > 0 {
        assert ([w] + ws)[i] == ws[i - 1];
      }
    }
  }

  /** Python's `sep.join(ws)` */
  function Join(sep: string, ws: seq<string>): string {
    if ws == [] then []
    else if |ws| == 1 then ws[0]
    else ws[0] + sep + Join(sep, ws[1..])
  }

  /** Python's `' '.join(s.split())` */
  function CollapseSpaces(s: string): string {
    Join(" ", Split(s))
  }

  /**
   * Every whitespace character is a plain space with a non-whitespace
   * character on each side: no leading, trailing or repeated whitespace.
   */
  predicate SingleSpaced(s: string) {
    forall i | 0 <= i < |s| :: SpaceOk(s, i)
  }

  /** A whitespace character at `i` is a plain space between two non-whitespace characters. */
  predicate SpaceOk(s: string, i: int)
    requires 0 <= i < |s|
  {
    IsSpace(s[i]) ==> s[i] == ' ' && 0 < i < |s| - 1 && !IsSpace(s[i + 1])
  }

  lemma SplitSpaceFirst(x: string)
    ensures Split(" " + x) == Split(x)
  {
    assert (" " + x)[1..] == x;
  }

  lemma {:induction false} WordLenOfWord(w: string, rest: string)
    requires NoSpace(w) && (rest == [] || IsSpace(rest[0]))
    ensures WordLen(w + rest) == |w|
  {
    if w == [] {
      assert w + rest == rest;
    } else {
      assert (w + rest)[0] == w[0];
      assert (w + rest)[1..] == w[1..] + rest;
      WordLenOfWord(w[1..], rest);
    }
  }

  /** Splitting a space-joined list of words gives the words back. */
  lemma {:induction false} SplitJoin(ws: seq<string>)
    requires forall i | 0 <= i < |ws| :: IsWord(ws[i])
    ensures Split(Join(" ", ws)) == ws
  {
    if ws == [] {
    } else if |ws| == 1 {
      CollapseWord(ws[0]);
    } else {
      SplitJoin(ws[1..]);
      SplitJoinCons(ws);
    }
  }

  /** The step of `SplitJoin`: one more word in front. */
  lemma SplitJoinCons(ws: seq<string>)
    requires |ws| > 1 && IsWord(ws[0]) && Split(Join(" ", ws[1..])) == ws[1..]
    ensures Split(Join(" ", ws)) == ws
  {
    var w, rest := ws[0], ws[1..];
    var j := Join(" ", rest);
    var s := Join(" ", ws);
    JoinFront(ws, w, rest, j, s);
    SplitCons(w, j, rest, s);
    HeadTail(ws);
  }

  lemma HeadTail<T>(xs: seq<T>)
    requires xs != []
    ensures [xs[0]] + xs[1..] == xs
  {
  }

  lemma JoinFront(ws: seq<string>, w: string, rest: seq<string>, j: string, s: string)
    requires |ws| > 1 && w == ws[0] && rest == ws[1..] && j == Join(" ", rest) && s == Join(" ", ws)
    ensures s == w + " " + j
  {
  }

  lemma SplitCons(w: string, j: string, rs: seq<string>, s: string)
    requires IsWord(w) && Split(j) == rs && s == w + " " + j
    ensures Split(s) == [w] + rs
  {
    SplitWordSpace(w, j);
  }

  /** A space-joined list of words is single-spaced. */
  lemma {:induction false} JoinSingleSpaced(ws: seq<string>)
    requires forall i | 0 <= i < |ws| :: IsWord(ws[i])
    ensures SingleSpaced(Join(" ", ws))
    ensures ws != [] ==> Join(" ", ws) != [] && !IsSpace(Join(" ", ws)[0])
  {
    if |ws| > 1 {
      var w := ws[0];
      var j := Join(" ", ws[1..]);
      JoinSingleSpaced(ws[1..]);
      var s := w + " " + j;
      forall i | 0 <= i < |s|
        ensures SpaceOk(s, i)
      {
        if i < |w| {
          assert s[i] == w[i];
        } else if i > |w| {
          assert s[i] == j[i - |w| - 1];
          assert SpaceOk(j, i - |w| - 1);
          if i + 1 < |s| {
            assert s[i + 1] == j[i - |w|];
          }
        } else {
          assert s[i + 1] == j[0];
        }
      }
    }
  }

  /**
   * `' '.join(s.split())` keeps the words of `s` and leaves single spaces
   * between them, with no whitespace at either end.
   */
  lemma CollapseSpacesSpec(s: string)
    ensures SingleSpaced(CollapseSpaces(s))
    ensures Split(CollapseSpaces(s)) == Split(s)
  {
    JoinSingleSpaced(Split(s));
    SplitJoin(Split(s));
  }

  lemma JoinCons(w: string, ws: seq<string>)
    requires ws != []
    ensures Join(" ", [w] + ws) == w + " " + Join(" ", ws)
  {
    assert ([w] + ws)[1..] == ws;
  }

  /** What follows an inner space of single-spaced text is single-spaced. */
  lemma SingleSpacedAfter(s: string, k: nat)
    requires SingleSpaced(s) && k < |s| && IsSpace(s[k])
    ensures k + 1 < |s| && SingleSpaced(s[k + 1..]) && !IsSpace(s[k + 1])
  {
    var rest := s[k + 1..];
    assert SpaceOk(s, k);
    forall i | 0 <= i < |rest|
      ensures SpaceOk(rest, i)
    {
      assert SpaceOk(s, k + 1 + i);
      assert rest[i] == s[k + 1 + i];
      assert i + 1 < |rest| ==> rest[i + 1] == s[k + 2 + i];
    }
  }

  /** The words of `w + " " + rest` are `w` followed by the words of `rest`. */
  lemma SplitWordSpace(w: string, rest: string)
    requires IsWord(w)
    ensures Split(w + " " + rest) == [w] + Split(rest)
  {
    var s := w + " " + rest;
    assert s == w + (" " + rest);
    WordLenOfWord(w, " " + rest);
    assert LStrip(s) == s;
    assert s[..|w|] == w;
    assert s[|w|..] == " " + rest;
    SplitSpaceFirst(rest);
  }

  /** A word followed by a space and single-spaced text survives collapsing. */
  lemma CollapseStep(w: string, rest: string)
    requires IsWord(w) && CollapseSpaces(rest) == rest && Split(rest) != []
    ensures CollapseSpaces(w + " " + rest) == w + " " + rest
  {
    SplitWordSpace(w, rest);
    JoinCons(w, Split(rest));
  }

  /** A single-spaced text that is one word. */
  lemma CollapseWord(w: string)
    requires IsWord(w)
    ensures Split(w) == [w]
  {
    WordLenOfWord(w, []);
    assert w + [] == w;
    assert LStrip(w) == w;
    assert w[..|w|] == w;
    assert w[|w|..] == [];
  }

  /** Text that is already single-spaced is left as it is. */
  lemma {:induction false} CollapseSpacesFixed(s: string)
    requires SingleSpaced(s)
    ensures CollapseSpaces(s) == s
    ensures s != [] ==> Split(s) != []
    decreases |s|
  {
    if s != [] {
      var k := WordLen(s);
      assert SpaceOk(s, 0);
      var w := s[..k];
      assert IsWord(w);
      if k == |s| {
        assert w == s;
        CollapseWord(s);
      } else {
        var rest := s[k + 1..];
        SingleSpacedAfter(s, k);
        assert SpaceOk(s, k);
        assert s == w + " " + rest;
        CollapseSpacesFixed(rest);
        CollapseStep(w, rest);
        SplitWordSpace(w, rest);
      }
    }
  }

  /** `' '.join(s.split())` is idempotent. */
  lemma CollapseSpacesIdempotent(s: string)
    ensures CollapseSpaces(CollapseSpaces(s)) == CollapseSpaces(s)
  {
    CollapseSpacesSpec(s);
    CollapseSpacesFixed(CollapseSpaces(s));
  }

  /** Length of the run of characters outside `seps` that starts `s`. */
  function FieldLen(s: string, seps: set<char>): (k: nat)
    ensures k <= |s|
    ensures forall i | 0 <= i < k :: s[i] !in seps
    ensures k < |s| ==> s[k] in seps
  {
    if s == [] || s[0] in seps then 0 else 1 + FieldLen(s[1..], seps)
  }

  /** Length of the run of characters of `seps` that starts `s`. */
  function RunLen(s: string, seps: set<char>): (k: nat)
    ensures k <= |s|
    ensures s != [] && s[0] in seps ==> k > 0
  {
    if s == [] || s[0] !in seps then 0 else 1 + RunLen(s[1..], seps)
  }

  /**
   * Python's `re.split('[' + seps + ']+', s)`: the pieces between maximal
   * runs of separator characters, including an empty piece before a leading
   * run and after a trailing one.
   */
  function SplitRuns(s: string, seps: set<char>): (fs: seq<string>)
    ensures |fs| >= 1
    ensures forall i, j | 0 <= i < |fs| && 0 <= j < |fs[i]| :: fs[i][j] !in seps
    decreases |s|
  {
    var k := FieldLen(s, seps);
    if k == |s| then [s]
    else
      var rest := s[k..];
      [s[..k]] + SplitRuns(rest[RunLen(rest, seps)..], seps)
  }

  /** Text has no words exactly when it is blank. */
  lemma SplitEmptyIffBlank(s: string)
    ensures Split(s) == [] <==> IsBlank(s)
  {
    var t := LStrip(s);
    if t == [] {
      assert s[..|s| - |t|] == s;
    } else {
      assert t[0] == s[|s| - |t|];
    }
  }

  /** `len(s.split())` */
  function WordCount(s: string): nat {
    |Split(s)|
  }

  /** The words of `s.split()` are made of characters of `s`. */
  lemma {:induction false} SplitChars(s: string)
    ensures forall k, c | 0 <= k < |Split(s)| && c in Split(s)[k] :: c in s
    decreases |s|
  {
    var t := LStrip(s);
    if t != [] {
      var k := WordLen(t);
      var rest := t[k..];
      var ws := Split(s);
      SplitChars(rest);
      SliceChars(s, |s| - |t|, |s|);
      SliceChars(t, 0, k);
      SliceChars(t, k, |t|);
      assert ws == [t[..k]] + Split(rest);
      forall j, c | 0 <= j < |ws| && c in ws[j] ensures c in s {
        if j == 0 {
          assert c in t[..k];
        } else {
          assert ws[j] == Split(rest)[j - 1];
          assert c in rest;
        }
      }
    }
  }

  /** `s` with every whitespace character dropped. */
  function NonSpace(s: string): (r: string)
    ensures |r| <= |s| && NoSpace(r)
  {
    if s == [] then [] else (if IsSpace(s[0]) then [] else [s[0]]) + NonSpace(s[1..])
  }

  /** `''.join(ws)` */
  function Concat(ws: seq<string>): string {
    if ws == [] then [] else ws[0] + Concat(ws[1..])
  }

  lemma {:induction false} NonSpaceAppend(a: string, b: string)
    ensures NonSpace(a + b) == NonSpace(a) + NonSpace(b)
  {
    if a != [] {
      var ab := a + b;
      assert ab[0] == a[0];
      assert ab[1..] == a[1..] + b;
      NonSpaceAppend(a[1..], b);
    } else {
      assert a + b == b;
    }
  }

  lemma {:induction false} NonSpaceOfSpace(s: string)
    requires AllSpace(s)
    ensures NonSpace(s) == []
  {
    if s != [] {
      NonSpaceOfSpace(s[1..]);
    }
  }

  lemma {:induction false} NonSpaceOfWord(s: string)
    requires NoSpace(s)
    ensures NonSpace(s) == s
  {
    if s != [] {
      NonSpaceOfWord(s[1..]);
      assert [s[0]] + s[1..] == s;
    }
  }

  /** Leading whitespace contributes nothing. */
  lemma StrippedNonSpace(s: string, n: nat)
    requires n <= |s| && AllSpace(s[..n])
    ensures NonSpace(s) == NonSpace(s[n..])
  {
    assert s == s[..n] + s[n..];
    NonSpaceAppend(s[..n], s[n..]);
    NonSpaceOfSpace(s[..n]);
  }

  /** A leading word is kept whole. */
  lemma WordNonSpace(t: string, k: nat)
    requires k <= |t| && NoSpace(t[..k])
    ensures NonSpace(t) == t[..k] + NonSpace(t[k..])
  {
    assert t == t[..k] + t[k..];
    NonSpaceAppend(t[..k], t[k..]);
    NonSpaceOfWord(t[..k]);
  }

  lemma ConcatCons(w: string, ws: seq<string>)
    ensures Concat([w] + ws) == w + Concat(ws)
  {
    assert ([w] + ws)[1..] == ws;
  }

  /**
   * The words of `s.split()` are the whole text apart from its whitespace:
   * concatenated they give `s` with every whitespace character removed.
   */
  lemma {:induction false} SplitConcat(s: string)
    ensures Concat(Split(s)) == NonSpace(s)
    decreases |s|
  {
    var t := LStrip(s);
    StrippedNonSpace(s, |s| - |t|);
    if t != [] {
      var k := WordLen(t);
      WordNonSpace(t, k);
      SplitConcat(t[k..]);
      ConcatCons(t[..k], Split(t[k..]));
    }
  }

  /** `sep.join(ws)` is made of the words' characters and the separator's. */
  lemma {:induction false} JoinChars(sep: string, ws: seq<string>)
    ensures forall c | c in Join(sep, ws) :: c in sep || exists k | 0 <= k < |ws| :: c in ws[k]
  {
    if |ws| > 1 {
      JoinChars(sep, ws[1..]);
      forall c | c in Join(sep, ws) ensures c in sep || exists k | 0 <= k < |ws| :: c in ws[k] {
        assert Join(sep, ws) == ws[0] + sep + Join(sep, ws[1..]);
        if c in Join(sep, ws[1..]) && c !in sep {
          var k :| 0 <= k < |ws[1..]| && c in ws[1..][k];
          assert c in ws[k + 1];
        }
      }
    }
  }

  /** `' '.join(s.split())` is made of characters of `s` and spaces. */
  lemma CollapseSpacesChars(s: string)
    ensures forall c | c in CollapseSpaces(s) :: c == ' ' || c in s
  {
    SplitChars(s);
    JoinChars(" ", Split(s));
  }
}
