/** The Python string operations the system relies on, stated exactly:
    `str.split(sep)`, `sep.join(parts)`, `str.split()`, `str.strip()`,
    `str.replace(pat, '')`, `str.endswith`, `os.path.join`, `os.path.basename`,
    `str.rstrip('/')`, `str(n)` and `re.sub('[^a-zA-Z0-9]', '_', s)`. */
module Text {

  // ---------------------------------------------------------------------------
  // Characters

  /** Python's `str.isspace` on the Basic Multilingual Plane. */
  predicate IsSpace(c: char) {
    c == ' ' || ('\t' <= c <= '\r') || (0x1c <= c as int <= 0x1f)
    || c as int == 0x85 || c as int == 0xa0 || c as int == 0x1680
    || (0x2000 <= c as int <= 0x200a) || c as int == 0x2028 || c as int == 0x2029
    || c as int == 0x202f || c as int == 0x205f || c as int == 0x3000
  }

  predicate IsLower(c: char) { 'a' <= c <= 'z' }

  predicate IsUpper(c: char) { 'A' <= c <= 'Z' }

  predicate IsDigit(c: char) { '0' <= c <= '9' }

  /** The class `[a-zA-Z0-9]`. */
  predicate IsAlnum(c: char) { IsLower(c) || IsUpper(c) || IsDigit(c) }

  function ToLowerChar(c: char): char {
    if IsUpper(c) then (c as int + 32) as char else c
  }

  function ToUpperChar(c: char): char {
    if IsLower(c) then (c as int - 32) as char else c
  }

  /** `str.lower()` restricted to ASCII letters. */
  function Lower(s: string): (r: string)
    ensures |r| == |s|
    ensures forall i :: 0 <= i < |s| ==> r[i] == ToLowerChar(s[i])
  {
    if |s| == 0 then "" else [ToLowerChar(s[0])] + Lower(s[1..])
  }

  /** Lower-casing twice changes nothing more. */
  lemma LowerIdempotent(s: string)
    ensures Lower(Lower(s)) == Lower(s)
  {
    assert forall i :: 0 <= i < |s| ==> Lower(Lower(s))[i] == Lower(s)[i];
  }

  // ---------------------------------------------------------------------------
  // Substrings

  /** `sub in s`. */
  predicate Contains(s: string, sub: string)
    decreases |s|
  {
    sub <= s || (|s| > 0 && Contains(s[1..], sub))
  }

  predicate EndsWith(s: string, suffix: string) {
    |suffix| <= |s| && s[|s| - |suffix|..] == suffix
  }

  lemma {:induction false} ContainsAppend(x: string, y: string, sub: string)
    requires Contains(x, sub)
    ensures Contains(x + y, sub)
    decreases |x|
  {
    if sub <= x {
      assert sub <= x + y;
    } else {
      assert (x + y)[1..] == x[1..] + y;
      ContainsAppend(x[1..], y, sub);
    }
  }

  lemma {:induction false} ContainsPrepend(x: string, y: string, sub: string)
    requires Contains(y, sub)
    ensures Contains(x + y, sub)
    decreases |x|
  {
    if |x| > 0 {
      assert (x + y)[1..] == x[1..] + y;
      ContainsPrepend(x[1..], y, sub);
    } else {
      assert x + y == y;
    }
  }

  /** A two-character pattern found in a concatenation lies in one half or
      straddles the seam. */
  lemma {:induction false} ContainsConcat2(a: string, b: string, sub: string)
    requires |sub| == 2
    requires Contains(a + b, sub)
    ensures Contains(a, sub) || Contains(b, sub)
            || (|a| > 0 && |b| > 0 && a[|a| - 1] == sub[0] && b[0] == sub[1])
    decreases |a|
  {
    if |a| == 0 {
      assert a + b == b;
    } else if sub <= a + b {
      if |a| >= 2 {
        assert sub == a[..2];
        assert sub <= a;
      }
    } else {
      assert (a + b)[1..] == a[1..] + b;
      ContainsConcat2(a[1..], b, sub);
    }
  }

  // ---------------------------------------------------------------------------
  // str.split(sep) and sep.join(parts)

  /** `s.split(sep)` for a non-empty separator: leftmost occurrences, left to right. */
  function Split(s: string, sep: string): (parts: seq<string>)
    requires |sep| > 0
    ensures |parts| >= 1
    decreases |s|
  {
    if |s| == 0 then [""]
    else if sep <= s then [""] + Split(s[|sep|..], sep)
    else
      var rest := Split(s[1..], sep);
      [[s[0]] + rest[0]] + rest[1..]
  }

  /** Number of (non-overlapping, leftmost-first) occurrences of `sep` in `s`. */
  function Occurrences(s: string, sep: string): nat
    requires |sep| > 0
    decreases |s|
  {
    if |s| == 0 then 0
    else if sep <= s then 1 + Occurrences(s[|sep|..], sep)
    else Occurrences(s[1..], sep)
  }

  /** `sep.join(parts)`. */
  function Join(parts: seq<string>, sep: string): string
  {
    if |parts| == 0 then ""
    else if |parts| == 1 then parts[0]
    else parts[0] + sep + Join(parts[1..], sep)
  }

  /** `str.split` yields one more piece than there are separators. */
  lemma {:induction false} SplitCount(s: string, sep: string)
    requires |sep| > 0
    ensures |Split(s, sep)| == Occurrences(s, sep) + 1
    decreases |s|
  {
    if |s| == 0 {
    } else if sep <= s {
      SplitCount(s[|sep|..], sep);
    } else {
      SplitCount(s[1..], sep);
    }
  }

  /** A string without the separator splits into itself. */
  lemma {:induction false} SplitNoSeparator(s: string, sep: string)
    requires |sep| > 0
    requires !Contains(s, sep)
    ensures Split(s, sep) == [s]
    decreases |s|
  {
    if |s| > 0 {
      SplitNoSeparator(s[1..], sep);
      assert [s[0]] + s[1..] == s;
    }
  }

  /** Splitting at a first occurrence that nothing before it overlaps. */
  lemma {:induction false} SplitAtFirst(x: string, sep: string, y: string)
    requires |sep| > 0
    requires !Contains(x + sep[..|sep| - 1], sep)
    ensures Split(x + sep + y, sep) == [x] + Split(y, sep)
    decreases |x|
  {
    var s := x + sep + y;
    if |x| == 0 {
      assert s == sep + y;
      assert sep <= s;
      assert s[|sep|..] == y;
    } else {
      var t := x + sep[..|sep| - 1];
      assert t[..|sep|] == s[..|sep|];
      assert !(sep <= t);
      assert !(sep <= s);
      assert t[1..] == x[1..] + sep[..|sep| - 1];
      assert !Contains(t[1..], sep);
      SplitAtFirst(x[1..], sep, y);
      assert s[1..] == x[1..] + sep + y;
      assert [x[0]] + x[1..] == x;
    }
  }

  /** Joining a concatenation: the two joins meet at one separator. */
  lemma {:induction false} JoinAppend(a: seq<string>, b: seq<string>, sep: string)
    requires |a| >= 1 && |b| >= 1
    ensures Join(a + b, sep) == Join(a, sep) + sep + Join(b, sep)
    decreases |a|
  {
    if |a| == 1 {
      assert (a + b)[1..] == b;
    } else {
      assert (a + b)[1..] == a[1..] + b;
      JoinAppend(a[1..], b, sep);
    }
  }

  /** Every piece `str.split` returns is free of the separator. */
  lemma {:induction false} SplitPiecesFree(s: string, sep: string)
    requires |sep| > 0
    ensures forall k :: 0 <= k < |Split(s, sep)| ==> !Contains(Split(s, sep)[k], sep)
    decreases |s|
  {
    if |s| == 0 {
    } else if sep <= s {
      SplitPiecesFree(s[|sep|..], sep);
    } else {
      var rest := Split(s[1..], sep);
      SplitPiecesFree(s[1..], sep);
      SplitHeadIsPrefix(s[1..], sep);
      var head := [s[0]] + rest[0];
      assert head <= s;
      assert !(sep <= head);
      assert head[1..] == rest[0];
      assert !Contains(head, sep);
    }
  }

  /** The first piece is a prefix of the input. */
  lemma {:induction false} SplitHeadIsPrefix(s: string, sep: string)
    requires |sep| > 0
    ensures Split(s, sep)[0] <= s
    decreases |s|
  {
    if |s| > 0 && !(sep <= s) {
      SplitHeadIsPrefix(s[1..], sep);
    }
  }

  /** A pattern absent from a string is absent from each of its slices. */
  lemma NotContainsSlice(s: string, sub: string, i: int, j: int)
    requires 0 <= i <= j <= |s|
    requires !Contains(s, sub)
    ensures !Contains(s[i..j], sub)
  {
    assert s[i..j] + s[j..] == s[i..];
    assert s[..i] + s[i..] == s;
    if Contains(s[i..j], sub) {
      ContainsAppend(s[i..j], s[j..], sub);
      ContainsPrepend(s[..i], s[i..], sub);
    }
  }

  /** A pattern absent from the input is absent from every piece. */
  lemma {:induction false} SplitPiecesKeepAbsence(s: string, sep: string, sub: string)
    requires |sep| > 0 && |sub| > 0
    requires !Contains(s, sub)
    ensures forall k :: 0 <= k < |Split(s, sep)| ==> !Contains(Split(s, sep)[k], sub)
    decreases |s|
  {
    if |s| == 0 {
    } else if sep <= s {
      NotContainsSlice(s, sub, |sep|, |s|);
      assert s[|sep|..|s|] == s[|sep|..];
      SplitPiecesKeepAbsence(s[|sep|..], sep, sub);
    } else {
      var rest := Split(s[1..], sep);
      NotContainsSlice(s, sub, 1, |s|);
      assert s[1..|s|] == s[1..];
      SplitPiecesKeepAbsence(s[1..], sep, sub);
      SplitHeadIsPrefix(s[1..], sep);
      var head := [s[0]] + rest[0];
      assert head == s[..|head|];
      NotContainsSlice(s, sub, 0, |head|);
    }
  }

  /** Joining with a one-character separator the pieces do not contain and
      splitting again gives the pieces back. */
  lemma {:induction false} SplitJoin(parts: seq<string>, c: char)
    requires |parts| >= 1
    requires forall i :: 0 <= i < |parts| ==> c !in parts[i]
    ensures Split(Join(parts, [c]), [c]) == parts
    decreases |parts|
  {
    NoCharNoContains(parts[0], c);
    if |parts| == 1 {
      SplitNoSeparator(parts[0], [c]);
    } else {
      assert [c][..0] == "";
      assert parts[0] + [c][..0] == parts[0];
      SplitAtFirst(parts[0], [c], Join(parts[1..], [c]));
      SplitJoin(parts[1..], c);
      assert parts == [parts[0]] + parts[1..];
    }
  }

  lemma JoinCons(head: string, rest: seq<string>, sep: string)
    requires |rest| >= 1
    ensures Join([head] + rest, sep) == head + sep + Join(rest, sep)
  {
    assert ([head] + rest)[1..] == rest;
  }

  /** Position of the first `c` in `s`, or `|s|` when there is none. */
  function IndexOf(s: string, c: char): (k: nat)
    ensures k <= |s|
    ensures c !in s[..k]
    ensures k < |s| ==> s[k] == c
    ensures k == |s| <==> c !in s
  {
    if |s| == 0 then 0
    else if s[0] == c then 0
    else
      assert s[1..][..IndexOf(s[1..], c)] == s[1..1 + IndexOf(s[1..], c)];
      1 + IndexOf(s[1..], c)
  }

  /** The text before the first `c` (all of `s` when there is none). */
  function Before(s: string, c: char): string {
    s[..IndexOf(s, c)]
  }

  /** The text after the first `c` (empty when there is none). */
  function After(s: string, c: char): string {
    if IndexOf(s, c) < |s| then s[IndexOf(s, c) + 1..] else ""
  }

  /** `s.split(c)` for one character: the text before the first `c`, then the
      split of the rest. */
  lemma {:induction false} SplitFirstChar(s: string, c: char)
    ensures c !in s ==> Split(s, [c]) == [s]
    ensures c in s ==> Split(s, [c]) == [Before(s, c)] + Split(After(s, c), [c])
    decreases |s|
  {
    if |s| == 0 {
    } else if s[0] == c {
      assert [c] <= s;
      assert Before(s, c) == [] && After(s, c) == s[1..];
    } else {
      var t := s[1..];
      assert s == [s[0]] + t;
      assert !([c] <= s);
      SplitFirstChar(t, c);
      var rest := Split(t, [c]);
      assert Split(s, [c]) == [[s[0]] + rest[0]] + rest[1..];
      var k := IndexOf(t, c);
      assert IndexOf(s, c) == 1 + k;
      if k < |t| {
        assert Before(s, c) == [s[0]] + t[..k] by { assert s[..1 + k] == [s[0]] + t[..k]; }
        assert After(s, c) == After(t, c) by { assert s[1 + k + 1..] == t[k + 1..]; }
      }
    }
  }

  lemma {:induction false} NoCharNoContains(s: string, c: char)
    requires c !in s
    ensures !Contains(s, [c])
    decreases |s|
  {
    if |s| > 0 {
      assert s[0] != c;
      NoCharNoContains(s[1..], c);
    }
  }

  /** A character that occurs in a string is a one-character substring of it. */
  lemma CharContains(s: string, c: char)
    requires !Contains(s, [c])
    ensures c !in s
  {
    if c in s {
      var k :| 0 <= k < |s| && s[k] == c;
      CharAt(s, c, k);
    }
  }

  lemma {:induction false} CharAt(s: string, c: char, k: nat)
    requires k < |s| && s[k] == c
    ensures Contains(s, [c])
    decreases k
  {
    if k > 0 {
      CharAt(s[1..], c, k - 1);
    }
  }

  /** A pattern that does not occur at all cannot occur. */
  lemma {:induction false} NoCharNoPattern(s: string, sub: string, k: nat)
    requires k < |sub| && sub[k] !in s
    ensures !Contains(s, sub)
    decreases |s|
  {
    if |s| > 0 {
      NoCharNoPattern(s[1..], sub, k);
    }
  }

  // ---------------------------------------------------------------------------
  // str.strip()

  function StripLeft(s: string): (r: string)
    ensures |r| <= |s| && r == s[|s| - |r|..]
    ensures |r| > 0 ==> !IsSpace(r[0])
    decreases |s|
  {
    if |s| > 0 && IsSpace(s[0]) then StripLeft(s[1..]) else s
  }

  function StripRight(s: string): (r: string)
    ensures |r| <= |s| && r == s[..|r|]
    ensures |r| > 0 ==> !IsSpace(r[|r| - 1])
    decreases |s|
  {
    if |s| > 0 && IsSpace(s[|s| - 1]) then StripRight(s[..|s| - 1]) else s
  }

  /** Neither end is whitespace. */
  predicate Stripped(s: string) {
    |s| == 0 || (!IsSpace(s[0]) && !IsSpace(s[|s| - 1]))
  }

  predicate AllSpace(s: string) {
    forall i :: 0 <= i < |s| ==> IsSpace(s[i])
  }

  /** `str.strip()`: a substring of the input with no whitespace at either end. */
  function Strip(s: string): (r: string)
    ensures Stripped(r)
    ensures |r| <= |s|
  {
    StripRight(StripLeft(s))
  }

  lemma {:induction false} StripLeftPadded(a: string, x: string)
    requires AllSpace(a)
    requires |x| == 0 || !IsSpace(x[0])
    ensures StripLeft(a + x) == x
    decreases |a|
  {
    if |a| > 0 {
      assert (a + x)[1..] == a[1..] + x;
      StripLeftPadded(a[1..], x);
    } else {
      assert a + x == x;
    }
  }

  lemma {:induction false} StripRightPadded(x: string, b: string)
    requires AllSpace(b)
    requires |x| == 0 || !IsSpace(x[|x| - 1])
    ensures StripRight(x + b) == x
    decreases |b|
  {
    if |b| > 0 {
      assert (x + b)[..|x + b| - 1] == x + b[..|b| - 1];
      StripRightPadded(x, b[..|b| - 1]);
    } else {
      assert x + b == x;
    }
  }

  lemma {:induction false} StripAllSpace(s: string)
    requires AllSpace(s)
    ensures StripLeft(s) == ""
    decreases |s|
  {
    if |s| > 0 {
      StripAllSpace(s[1..]);
    }
  }

  /** Stripping whitespace padding recovers an already stripped string. */
  lemma StripPadded(a: string, x: string, b: string)
    requires AllSpace(a) && AllSpace(b) && Stripped(x)
    ensures Strip(a + x + b) == x
  {
    if |x| == 0 {
      assert a + x + b == a + b;
      assert AllSpace(a + b);
      StripAllSpace(a + b);
    } else {
      assert a + x + b == a + (x + b);
      StripLeftPadded(a, x + b);
      StripRightPadded(x, b);
    }
  }

  /** A pattern absent from the input stays absent after stripping. */
  lemma StripKeepsAbsence(s: string, sub: string)
    requires !Contains(s, sub)
    ensures !Contains(Strip(s), sub)
  {
    var l := StripLeft(s);
    NotContainsSlice(s, sub, |s| - |l|, |s|);
    assert s[|s| - |l|..|s|] == l;
    NotContainsSlice(l, sub, 0, |StripRight(l)|);
  }

  // ---------------------------------------------------------------------------
  // str.split() with no argument: maximal runs of non-whitespace

  /** The leading run of non-whitespace characters. */
  function TakeWord(s: string): (w: string)
    ensures w <= s
    ensures |s| > 0 && !IsSpace(s[0]) ==> |w| > 0
    decreases |s|
  {
    if |s| == 0 || IsSpace(s[0]) then "" else [s[0]] + TakeWord(s[1..])
  }

  /** `s.split()`: the maximal runs of non-whitespace characters. */
  function Words(s: string): seq<string>
    decreases |s|
  {
    if |s| == 0 then []
    else if IsSpace(s[0]) then Words(s[1..])
    else
      var w := TakeWord(s);
      [w] + Words(s[|w|..])
  }

  predicate NoSpace(s: string) {
    forall i :: 0 <= i < |s| ==> !IsSpace(s[i])
  }

  /** Printable ASCII other than the space: what the fixed words of a
      command line are made of. */
  predicate Visible(s: string) {
    forall i :: 0 <= i < |s| ==> '!' <= s[i] <= '~'
  }

  lemma VisibleNoSpace(s: string)
    requires Visible(s)
    ensures NoSpace(s)
  {
  }

  lemma AppendAssoc<T>(a: seq<T>, b: seq<T>, c: seq<T>)
    ensures (a + b) + c == a + (b + c)
  {
  }

  lemma SliceAfterPrefix<T>(a: seq<T>, b: seq<T>, lo: int, hi: int)
    requires |a| <= lo <= hi <= |a| + |b|
    ensures (a + b)[lo..hi] == b[lo - |a|..hi - |a|]
  {
  }

  lemma NoSpaceConcat(a: string, b: string)
    requires NoSpace(a) && NoSpace(b)
    ensures NoSpace(a + b)
  {
    forall i | 0 <= i < |a + b| ensures !IsSpace((a + b)[i]) {
      if i >= |a| {
        assert (a + b)[i] == b[i - |a|];
      }
    }
  }

  lemma {:induction false} TakeWordIsWord(s: string)
    ensures NoSpace(TakeWord(s))
    ensures |TakeWord(s)| < |s| ==> IsSpace(s[|TakeWord(s)|])
    decreases |s|
  {
    if |s| > 0 && !IsSpace(s[0]) {
      TakeWordIsWord(s[1..]);
    }
  }

  /** Every word `str.split()` yields is non-empty and free of whitespace. */
  lemma {:induction false} WordsAreWords(s: string)
    ensures forall k :: 0 <= k < |Words(s)| ==> |Words(s)[k]| > 0 && NoSpace(Words(s)[k])
    decreases |s|
  {
    if |s| == 0 {
    } else if IsSpace(s[0]) {
      WordsAreWords(s[1..]);
    } else {
      TakeWordIsWord(s);
      WordsAreWords(s[|TakeWord(s)|..]);
    }
  }

  lemma {:induction false} TakeWordOfWordThenSpace(w: string, rest: string)
    requires NoSpace(w)
    requires |rest| == 0 || IsSpace(rest[0])
    ensures TakeWord(w + rest) == w
    decreases |w|
  {
    if |w| > 0 {
      assert (w + rest)[1..] == w[1..] + rest;
      TakeWordOfWordThenSpace(w[1..], rest);
    } else {
      assert w + rest == rest;
    }
  }

  lemma WordsWordFirst(w: string, rest: string)
    requires |w| > 0 && NoSpace(w)
    requires |rest| == 0 || IsSpace(rest[0])
    ensures Words(w + rest) == [w] + Words(rest)
  {
    TakeWordOfWordThenSpace(w, rest);
    assert (w + rest)[|w|..] == rest;
  }

  /** Words joined by single spaces split back into the same words: the way a
      shell reads a command line the system writes. */
  lemma {:induction false} WordsOfUnwords(ws: seq<string>)
    requires forall k :: 0 <= k < |ws| ==> |ws[k]| > 0 && NoSpace(ws[k])
    ensures Words(Join(ws, " ")) == ws
    decreases |ws|
  {
    if |ws| == 1 {
      WordsWordFirst(ws[0], "");
      assert ws[0] + "" == ws[0];
    } else if |ws| > 1 {
      assert ws == [ws[0]] + ws[1..];
      var j := Join(ws[1..], " ");
      assert Join(ws, " ") == ws[0] + (" " + j);
      WordsWordFirst(ws[0], " " + j);
      assert (" " + j)[1..] == j;
      WordsOfUnwords(ws[1..]);
    }
  }

  // ---------------------------------------------------------------------------
  // str.replace(pat, '')

  /** `s.replace(pat, '')`: every leftmost occurrence of `pat` removed. */
  function RemoveAll(s: string, pat: string): (r: string)
    requires |pat| > 0
    ensures |r| <= |s|
    decreases |s|
  {
    if |s| == 0 then ""
    else if pat <= s then RemoveAll(s[|pat|..], pat)
    else [s[0]] + RemoveAll(s[1..], pat)
  }

  lemma {:induction false} RemoveAllAbsent(s: string, pat: string)
    requires |pat| > 0
    requires !Contains(s, pat)
    ensures RemoveAll(s, pat) == s
    decreases |s|
  {
    if |s| > 0 {
      RemoveAllAbsent(s[1..], pat);
      assert [s[0]] + s[1..] == s;
    }
  }

  // ---------------------------------------------------------------------------
  // Paths

  /** `os.path.join` (POSIX). */
  function PathJoin(parts: seq<string>): string
    decreases |parts|
  {
    if |parts| == 0 then ""
    else PathJoinStep(PathJoin(parts[..|parts| - 1]), parts[|parts| - 1])
  }

  function PathJoinStep(path: string, b: string): string {
    if |b| > 0 && b[0] == '/' then b
    else if |path| == 0 || path[|path| - 1] == '/' then path + b
    else path + "/" + b
  }

  /** Joining whitespace-free parts gives a whitespace-free path that is at
      least as long as its last part. */
  lemma {:induction false} PathJoinNoSpace(parts: seq<string>)
    requires forall k :: 0 <= k < |parts| ==> NoSpace(parts[k])
    ensures NoSpace(PathJoin(parts))
    ensures |parts| > 0 ==> |PathJoin(parts)| >= |parts[|parts| - 1]|
    decreases |parts|
  {
    if |parts| > 0 {
      var init := parts[..|parts| - 1];
      PathJoinNoSpace(init);
      var p := PathJoin(init);
      var b := parts[|parts| - 1];
      assert NoSpace(p + b);
      assert NoSpace(p + "/" + b);
    }
  }

  /** `os.path.basename`: the text after the last '/'. */
  function Basename(p: string): (r: string)
    ensures '/' !in r
    ensures EndsWith(p, r)
    decreases |p|
  {
    if |p| == 0 then ""
    else if p[|p| - 1] == '/' then ""
    else Basename(p[..|p| - 1]) + [p[|p| - 1]]
  }

  /** The base name of a name appended to a directory is the name. */
  lemma {:induction false} BasenameOfJoin(dir: string, name: string)
    requires '/' !in name
    requires |dir| == 0 || dir[|dir| - 1] == '/'
    ensures Basename(dir + name) == name
    decreases |name|
  {
    var p := dir + name;
    if |name| == 0 {
      assert p == dir;
    } else {
      var last := name[|name| - 1];
      var init := name[..|name| - 1];
      assert p[|p| - 1] == last && last != '/';
      assert p[..|p| - 1] == dir + init;
      assert Basename(p) == Basename(dir + init) + [last];
      BasenameOfJoin(dir, init);
      assert init + [last] == name;
    }
  }

  /** `os.path.basename(os.path.join(dir, name))` is `name` for a plain name. */
  lemma BasenamePathJoin(dir: string, name: string)
    requires '/' !in name
    ensures Basename(PathJoin([dir, name])) == name
  {
    assert [dir, name][..1] == [dir];
    assert [dir][..0] == [];
    assert PathJoin([dir]) == dir;
    if |dir| == 0 || dir[|dir| - 1] == '/' {
      BasenameOfJoin(dir, name);
    } else {
      BasenameOfJoin(dir + "/", name);
      assert dir + "/" + name == (dir + "/") + name;
    }
  }

  /** Removing a pattern whose first character the text lacks leaves the text. */
  lemma {:induction false} RemoveAllSuffix(x: string, pat: string)
    requires |pat| > 0 && pat[0] !in x
    ensures RemoveAll(x + pat, pat) == x
    decreases |x|
  {
    if |x| == 0 {
      assert x + pat == pat;
      assert pat[|pat|..] == "";
    } else {
      assert !(pat <= x + pat);
      assert (x + pat)[1..] == x[1..] + pat;
      RemoveAllSuffix(x[1..], pat);
      assert [x[0]] + x[1..] == x;
    }
  }

  /** Removing text never introduces a character. */
  lemma {:induction false} RemoveAllKeepsAbsence(s: string, pat: string, c: char)
    requires |pat| > 0 && c !in s
    ensures c !in RemoveAll(s, pat)
    decreases |s|
  {
    if |s| > 0 {
      if pat <= s {
        RemoveAllKeepsAbsence(s[|pat|..], pat, c);
      } else {
        RemoveAllKeepsAbsence(s[1..], pat, c);
      }
    }
  }

  /** `s.rstrip('/')`. */
  function RStripSlash(s: string): (r: string)
    ensures r <= s
    ensures |r| == 0 || r[|r| - 1] != '/'
    ensures forall i :: |r| <= i < |s| ==> s[i] == '/'
    decreases |s|
  {
    if |s| > 0 && s[|s| - 1] == '/' then RStripSlash(s[..|s| - 1]) else s
  }

  // ---------------------------------------------------------------------------
  // Naming helpers

  /** `re.sub('[^a-zA-Z0-9]', '_', s)`. */
  function Sanitize(s: string): (r: string)
    ensures |r| == |s|
    ensures forall i :: 0 <= i < |s| ==> r[i] == (if IsAlnum(s[i]) then s[i] else '_')
  {
    if |s| == 0 then "" else [if IsAlnum(s[0]) then s[0] else '_'] + Sanitize(s[1..])
  }

  /** A sanitised name is safe for a submission-script file name. */
  lemma SanitizeSafe(s: string)
    ensures forall i :: 0 <= i < |s| ==> IsAlnum(Sanitize(s)[i]) || Sanitize(s)[i] == '_'
    ensures Sanitize(Sanitize(s)) == Sanitize(s)
  {
  }

  function DigitChar(d: nat): char
    requires d < 10
  {
    "0123456789"[d]
  }

  /** `str(n)` for a natural number. */
  function NatToString(n: nat): (r: string)
    ensures |r| >= 1
    ensures forall i :: 0 <= i < |r| ==> IsDigit(r[i])
    ensures n >= 10 ==> |r| >= 2
    decreases n
  {
    if n < 10 then [DigitChar(n)] else NatToString(n / 10) + [DigitChar(n % 10)]
  }

  /** Printed numbers hold neither whitespace nor a path separator. */
  lemma NatToStringPlain(n: nat)
    ensures NoSpace(NatToString(n)) && '/' !in NatToString(n)
  {
    var r := NatToString(n);
    assert forall i :: 0 <= i < |r| ==> IsDigit(r[i]);
  }

  /** Distinct numbers print differently, so positional file names never collide. */
  lemma {:induction false} NatToStringInjective(n: nat, m: nat)
    requires NatToString(n) == NatToString(m)
    ensures n == m
    decreases n
  {
    var s := NatToString(n);
    if n < 10 && m < 10 {
      assert DigitChar(n) == DigitChar(m);
    } else if n >= 10 && m >= 10 {
      assert s[|s| - 1] == DigitChar(n % 10) == DigitChar(m % 10);
      assert s[..|s| - 1] == NatToString(n / 10) == NatToString(m / 10);
      NatToStringInjective(n / 10, m / 10);
    }
  }
}
