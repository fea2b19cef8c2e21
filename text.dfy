/**
 * Character classes and the string operations that WordGraph.py uses to turn
 * text into word tokens: punctuation removal (graph construction), punctuation
 * padding (text augmentation), whitespace splitting and lowercasing.
 */
module Text {

  /** Membership in Python's `string.punctuation` (the 32 ASCII punctuation characters). */
  predicate IsPunctuation(c: char) {
    ('!' <= c <= '/') || (':' <= c <= '@') || ('[' <= c <= '`') || ('{' <= c <= '~')
  }

  /** The characters on which Python's argument-less `str.split()` breaks. */
  predicate IsWhitespace(c: char) {
    var n := c as int;
    (9 <= n <= 13) || (28 <= n <= 32) || n == 0x85 || n == 0xA0 || n == 0x1680
    || (0x2000 <= n <= 0x200A) || n == 0x2028 || n == 0x2029 || n == 0x202F
    || n == 0x205F || n == 0x3000
  }

  predicate NoWhitespace(s: string) {
    forall i :: 0 <= i < |s| ==> !IsWhitespace(s[i])
  }

  predicate NoPunctuation(s: string) {
    forall i :: 0 <= i < |s| ==> !IsPunctuation(s[i])
  }

  predicate NoUpper(s: string) {
    forall i :: 0 <= i < |s| ==> !('A' <= s[i] <= 'Z')
  }

  /** `str.lower()` restricted to ASCII letters. */
  function LowerChar(c: char): char {
    if 'A' <= c <= 'Z' then (c as int + 32) as char else c
  }

  function Lower(s: string): (r: string)
    ensures |r| == |s| && NoUpper(r)
    ensures forall i :: 0 <= i < |s| && !('A' <= s[i] <= 'Z') ==> r[i] == s[i]
  {
    seq(|s|, i requires 0 <= i < |s| => LowerChar(s[i]))
  }

  /** Lowercasing is idempotent: the tokens of generateNewText are lowered twice. */
  lemma LowerIdempotent(s: string)
    ensures Lower(Lower(s)) == Lower(s)
  {
  }

  /** The per-token lowercasing loop of generateGraph and generateNewText. */
  function LowerAll(ts: seq<string>): (r: seq<string>)
    ensures |r| == |ts| && forall k :: 0 <= k < |r| ==> NoUpper(r[k])
  {
    seq(|ts|, k requires 0 <= k < |ts| => Lower(ts[k]))
  }

  method LowerTokens(tokens: seq<string>) returns (r: seq<string>)
    ensures r == LowerAll(tokens)
  {
    r := tokens;
    for i := 0 to |r|
      invariant |r| == |tokens|
      invariant forall k :: 0 <= k < i ==> r[k] == Lower(tokens[k])
      invariant forall k :: i <= k < |r| ==> r[k] == tokens[k]
    {
      r := r[i := Lower(r[i])];
    }
  }

  /** The characters of `s` that are not whitespace, in order. */
  function NonSpace(s: string): string {
    if s == [] then [] else (if IsWhitespace(s[0]) then [] else [s[0]]) + NonSpace(s[1..])
  }

  lemma {:induction false} NonSpaceAppend(a: string, b: string)
    ensures NonSpace(a + b) == NonSpace(a) + NonSpace(b)
  {
    if a == [] {
      assert a + b == b;
    } else {
      assert (a + b)[1..] == a[1..] + b;
      NonSpaceAppend(a[1..], b);
    }
  }

  lemma {:induction false} NonSpaceOfWord(s: string)
    requires NoWhitespace(s)
    ensures NonSpace(s) == s
  {
    if s != [] {
      NonSpaceOfWord(s[1..]);
    }
  }

  lemma {:induction false} NonSpaceMember(s: string, c: char)
    requires !IsWhitespace(c)
    ensures c in s <==> c in NonSpace(s)
  {
    if s != [] {
      NonSpaceMember(s[1..], c);
      assert c in s <==> c == s[0] || c in s[1..];
    }
  }

  function Concat(ss: seq<string>): string {
    if ss == [] then [] else ss[0] + Concat(ss[1..])
  }

  /** The length of the leading run of non-whitespace characters. */
  function WordLength(s: string): (n: nat)
    ensures n <= |s| && (n < |s| ==> IsWhitespace(s[n]))
    ensures forall i :: 0 <= i < n ==> !IsWhitespace(s[i])
  {
    if s == [] || IsWhitespace(s[0]) then 0 else 1 + WordLength(s[1..])
  }

  /**
   * Python's argument-less `str.split()`: the maximal runs of non-whitespace
   * characters. The tokens are non-empty, hold no whitespace, and together
   * spell exactly the non-whitespace characters of `s`.
   */
  function Split(s: string): (r: seq<string>)
    ensures forall k :: 0 <= k < |r| ==> r[k] != [] && NoWhitespace(r[k])
    ensures Concat(r) == NonSpace(s)
    decreases |s|
  {
    if s == [] then []
    else if IsWhitespace(s[0]) then Split(s[1..])
    else
      var n := WordLength(s);
      var rest := Split(s[n..]);
      assert s == s[..n] + s[n..];
      NonSpaceAppend(s[..n], s[n..]);
      NonSpaceOfWord(s[..n]);
      [s[..n]] + rest
  }

  /** Python's `str.replace` for a one-character pattern. */
  function Replace(s: string, p: char, rep: string): string {
    if s == [] then [] else (if s[0] == p then rep else [s[0]]) + Replace(s[1..], p, rep)
  }

  lemma {:induction false} ReplaceWithChar(s: string, p: char, c: char)
    ensures Replace(s, p, [c]) == seq(|s|, i requires 0 <= i < |s| => if s[i] == p then c else s[i])
  {
    if s != [] {
      ReplaceWithChar(s[1..], p, c);
    }
  }

  // ---------------------------------------------------------------------------
  // generateGraph: every punctuation character becomes a space

  /** The line after generateGraph's punctuation loop (WordGraph.py:80-83). */
  function Blanked(line: string): (r: string)
    ensures |r| == |line| && NoPunctuation(r)
  {
    seq(|line|, i requires 0 <= i < |line| => if IsPunctuation(line[i]) then ' ' else line[i])
  }

  /**
   * The loop over the characters of the ORIGINAL line that replaces every
   * occurrence of each punctuation character it meets by a space.
   */
  method BlankPunctuation(line: string) returns (r: string)
    ensures r == Blanked(line)
  {
    r := line;
    for k := 0 to |line|
      invariant |r| == |line|
      invariant forall i :: 0 <= i < |line| ==>
        r[i] == if IsPunctuation(line[i]) && line[i] in line[..k] then ' ' else line[i]
    {
      var piece := line[k];
      if IsPunctuation(piece) {
        ReplaceWithChar(r, piece, ' ');
        r := Replace(r, piece, " ");
      }
      assert line[..k + 1] == line[..k] + [piece];
    }
    assert line[..|line|] == line;
  }

  /** The words of one line as generateGraph splits it. */
  lemma GraphWordsClean(line: string)
    ensures forall k :: 0 <= k < |Split(Blanked(line))| ==>
      NoPunctuation(Split(Blanked(line))[k])
  {
    var b := Blanked(line);
    var ws := Split(b);
    forall k | 0 <= k < |ws| ensures NoPunctuation(ws[k]) {
      forall i | 0 <= i < |ws[k]| ensures !IsPunctuation(ws[k][i]) {
        ConcatMember(ws, k, i);
        NonSpaceMember(b, ws[k][i]);
      }
    }
  }

  lemma {:induction false} ConcatMember(ss: seq<string>, k: nat, i: nat)
    requires k < |ss| && i < |ss[k]|
    ensures ss[k][i] in Concat(ss)
  {
    if k > 0 {
      ConcatMember(ss[1..], k - 1, i);
    }
  }

  // ---------------------------------------------------------------------------
  // generateNewText: a space is put in front of every punctuation character

  /**
   * The loop of WordGraph.py:140-143 after its first `k` characters: for each
   * punctuation character of the ORIGINAL line it meets (repeats included), every
   * occurrence in the current line gets one more space in front of it.
   */
  function PadFrom(line: string, cur: string, k: nat): string
    requires k <= |line|
    decreases |line| - k
  {
    if k == |line| then cur
    else PadFrom(line, if IsPunctuation(line[k]) then Replace(cur, line[k], [' ', line[k]]) else cur, k + 1)
  }

  function PadPunctuation(line: string): string {
    PadFrom(line, line, 0)
  }

  method PadPunctuationLoop(line: string) returns (r: string)
    ensures r == PadPunctuation(line)
  {
    r := line;
    for k := 0 to |line|
      invariant PadFrom(line, r, k) == PadPunctuation(line)
    {
      var piece := line[k];
      if IsPunctuation(piece) {
        r := Replace(r, piece, [' ', piece]);
      }
    }
  }

  /** Every character of `s` drawn from `ps`, except possibly the first, has a space before it. */
  ghost predicate SpacedBefore(s: string, ps: set<char>) {
    forall i :: 0 < i < |s| && s[i] in ps ==> s[i - 1] == ' '
  }

  lemma {:induction false} ReplacePadSpacing(s: string, p: char, ps: set<char>)
    requires ' ' !in ps && p != ' '
    requires SpacedBefore(s, ps)
    ensures SpacedBefore(Replace(s, p, [' ', p]), ps + {p})
    ensures s != [] ==> (Replace(s, p, [' ', p]) != []
                         && (Replace(s, p, [' ', p])[0] in ps + {p} ==> s[0] in ps))
  {
    if s != [] {
      var head := if s[0] == p then [' ', p] else [s[0]];
      var tail := Replace(s[1..], p, [' ', p]);
      assert SpacedBefore(s[1..], ps) by {
        forall i | 0 < i < |s[1..]| && s[1..][i] in ps ensures s[1..][i - 1] == ' ' {
          assert s[1..][i] == s[i + 1];
        }
      }
      ReplacePadSpacing(s[1..], p, ps);
      var r := head + tail;
      assert Replace(s, p, [' ', p]) == r;
      forall i | 0 < i < |r| && r[i] in ps + {p} ensures r[i - 1] == ' ' {
        if i < |head| {
        } else if i == |head| {
          assert r[i] == tail[0];
          assert s[1] in ps;
          assert s[0] == ' ';
        } else {
          assert r[i] == tail[i - |head|] && r[i - 1] == tail[i - 1 - |head|];
        }
      }
    }
  }

  lemma {:induction false} NonSpaceReplacePad(s: string, p: char)
    requires !IsWhitespace(p)
    ensures NonSpace(Replace(s, p, [' ', p])) == NonSpace(s)
  {
    if s != [] {
      var head := if s[0] == p then [' ', p] else [s[0]];
      NonSpaceAppend(head, Replace(s[1..], p, [' ', p]));
      NonSpaceReplacePad(s[1..], p);
      if s[0] == p {
        assert NonSpace(head) == [p] by {
          assert head[1..][1..] == [];
        }
      }
    }
  }

  function PunctuationIn(s: string): set<char> {
    set c | c in s && IsPunctuation(c)
  }

  lemma PunctuationInSnoc(s: string, p: char)
    ensures PunctuationIn(s + [p]) == PunctuationIn(s) + (if IsPunctuation(p) then {p} else {})
  {
    forall c | c in s + [p] ensures c in s || c == p {
    }
  }

  lemma {:induction false} PadFromSpacing(line: string, cur: string, k: nat)
    requires k <= |line|
    requires NonSpace(cur) == NonSpace(line)
    requires SpacedBefore(cur, PunctuationIn(line[..k]))
    requires cur != [] ==> cur[0] !in PunctuationIn(line[..k])
    ensures NonSpace(PadFrom(line, cur, k)) == NonSpace(line)
    ensures SpacedBefore(PadFrom(line, cur, k), PunctuationIn(line))
    ensures PadFrom(line, cur, k) != [] ==> PadFrom(line, cur, k)[0] !in PunctuationIn(line)
    decreases |line| - k
  {
    if k == |line| {
      assert line[..k] == line;
    } else {
      var p := line[k];
      assert line[..k + 1] == line[..k] + [p];
      PunctuationInSnoc(line[..k], p);
      if IsPunctuation(p) {
        PadFromSpacingStep(line, cur, k);
      } else {
        PadFromSpacing(line, cur, k + 1);
      }
    }
  }

  lemma {:induction false} PadFromSpacingStep(line: string, cur: string, k: nat)
    requires k < |line| && IsPunctuation(line[k])
    requires NonSpace(cur) == NonSpace(line)
    requires SpacedBefore(cur, PunctuationIn(line[..k]))
    requires cur != [] ==> cur[0] !in PunctuationIn(line[..k])
    requires PunctuationIn(line[..k + 1]) == PunctuationIn(line[..k]) + {line[k]}
    ensures NonSpace(PadFrom(line, cur, k)) == NonSpace(line)
    ensures SpacedBefore(PadFrom(line, cur, k), PunctuationIn(line))
    ensures PadFrom(line, cur, k) != [] ==> PadFrom(line, cur, k)[0] !in PunctuationIn(line)
    decreases |line| - k, 0
  {
    var p := line[k];
    var next := Replace(cur, p, [' ', p]);
    assert PadFrom(line, cur, k) == PadFrom(line, next, k + 1);
    ReplacePadSpacing(cur, p, PunctuationIn(line[..k]));
    NonSpaceReplacePad(cur, p);
    PadFromSpacing(line, next, k + 1);
  }

  /**
   * After padding, the line keeps its non-whitespace characters in order, and every
   * punctuation character has a space in front of it (so it starts a new token).
   */
  lemma PadPunctuationSpec(line: string)
    ensures NonSpace(PadPunctuation(line)) == NonSpace(line)
    ensures forall i :: 0 <= i < |PadPunctuation(line)| && IsPunctuation(PadPunctuation(line)[i]) ==>
      i > 0 && PadPunctuation(line)[i - 1] == ' '
  {
    assert line[..0] == [];
    assert PunctuationIn([]) == {};
    PadFromSpacing(line, line, 0);
    var r := PadPunctuation(line);
    forall i | 0 <= i < |r| && IsPunctuation(r[i]) ensures i > 0 && r[i - 1] == ' ' {
      assert r[i] in r;
      NonSpaceMember(r, r[i]);
      NonSpaceMember(line, r[i]);
      assert r[i] in PunctuationIn(line);
    }
  }
}
