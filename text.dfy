/** String handling used by the command handler: JavaScript's `String.prototype.trim`,
    `split(/ +/)` (split on runs of U+0020) and an ASCII-only `toLowerCase`. */
module Text {

  /** The characters JavaScript's `trim` removes: WhiteSpace and LineTerminator code points. */
  predicate IsWhitespace(c: char)
  {
    || c == '\t' || c == '\n' || c == '\U{000B}' || c == '\U{000C}' || c == '\r' || c == ' '
    || c == '\U{00A0}' || c == '\U{1680}' || ('\U{2000}' <= c <= '\U{200A}')
    || c == '\U{2028}' || c == '\U{2029}' || c == '\U{202F}' || c == '\U{205F}'
    || c == '\U{3000}' || c == '\U{FEFF}'
  }

  /** Drops leading whitespace: the result is a suffix of `s` and only whitespace was dropped. */
  function TrimStart(s: string): (r: string)
    ensures |r| <= |s| && r == s[|s| - |r|..]
    ensures forall i :: 0 <= i < |s| - |r| ==> IsWhitespace(s[i])
    ensures r == [] || !IsWhitespace(r[0])
  {
    if s != [] && IsWhitespace(s[0]) then TrimStart(s[1..]) else s
  }

  /** Drops trailing whitespace: the result is a prefix of `s` and only whitespace was dropped. */
  function TrimEnd(s: string): (r: string)
    ensures |r| <= |s| && r == s[..|r|]
    ensures forall i :: |r| <= i < |s| ==> IsWhitespace(s[i])
    ensures r == [] || !IsWhitespace(r[|r| - 1])
  {
    if s != [] && IsWhitespace(s[|s| - 1]) then TrimEnd(s[..|s| - 1]) else s
  }

  /** `s.trim()`: neither end of the result is whitespace. */
  function Trim(s: string): (r: string)
    ensures |r| <= |s|
    ensures r == [] || (!IsWhitespace(r[0]) && !IsWhitespace(r[|r| - 1]))
  {
    TrimEnd(TrimStart(s))
  }

  /** How many characters `TrimStart` drops. */
  function Leading(s: string): nat
  {
    |s| - |TrimStart(s)|
  }

  /** `Trim` only drops whitespace: its result is the slice of `s` between a whitespace-only
      head of length `Leading(s)` and a whitespace-only tail. */
  lemma TrimSlice(s: string)
    ensures Leading(s) + |Trim(s)| <= |s|
    ensures Trim(s) == s[Leading(s)..Leading(s) + |Trim(s)|]
    ensures forall i :: 0 <= i < Leading(s) ==> IsWhitespace(s[i])
    ensures forall i :: Leading(s) + |Trim(s)| <= i < |s| ==> IsWhitespace(s[i])
  {
    var tail := TrimStart(s);
    var r := TrimEnd(tail);
    var lead := Leading(s);
    assert r == Trim(s);
    assert tail == s[lead..];
    assert r == tail[..|r|];
    assert r == s[lead..lead + |r|];
    assert forall i :: 0 <= i < lead ==> IsWhitespace(s[i]);
    forall i | lead + |r| <= i < |s| ensures IsWhitespace(s[i]) {
      assert s[i] == tail[i - lead];
    }
  }

  /** A string whose ends are not whitespace is left alone by `Trim`; in particular `Trim` is idempotent. */
  lemma TrimFixed(s: string)
    requires s == [] || (!IsWhitespace(s[0]) && !IsWhitespace(s[|s| - 1]))
    ensures Trim(s) == s
  {
  }

  lemma TrimIdempotent(s: string)
    ensures Trim(Trim(s)) == Trim(s)
  {
    TrimFixed(Trim(s));
  }

  /** Index of the first U+0020 in `s`, or `|s|` when there is none. */
  function IndexOfSpace(s: string): (i: nat)
    ensures i <= |s|
    ensures i < |s| ==> s[i] == ' '
    ensures forall k :: 0 <= k < i ==> s[k] != ' '
  {
    if s == [] || s[0] == ' ' then 0 else 1 + IndexOfSpace(s[1..])
  }

  /** Drops a leading run of U+0020 (the greedy match of `/ +/`). */
  function SkipSpaces(s: string): (r: string)
    ensures |r| <= |s| && r == s[|s| - |r|..]
    ensures forall k :: 0 <= k < |s| - |r| ==> s[k] == ' '
    ensures r == [] || r[0] != ' '
    ensures s != [] && s[0] == ' ' ==> |r| < |s|
  {
    if s != [] && s[0] == ' ' then SkipSpaces(s[1..]) else s
  }

  /** `s.split(/ +/)`: the pieces between maximal runs of U+0020. There is always at least one
      piece, and no piece holds a space. */
  function SplitSpaces(s: string): (r: seq<string>)
    ensures |r| >= 1
    ensures forall t :: t in r ==> ' ' !in t
    decreases |s|
  {
    var i := IndexOfSpace(s);
    if i == |s| then [s]
    else
      assert ' ' !in s[..i];
      [s[..i]] + SplitSpaces(SkipSpaces(s[i..]))
  }

  /** `n` spaces. */
  function Spaces(n: nat): (r: string)
    ensures |r| == n && forall i :: 0 <= i < n ==> r[i] == ' '
  {
    if n == 0 then [] else " " + Spaces(n - 1)
  }

  /** The tokens `ts` separated by runs of `ns[k]` spaces. */
  function JoinRuns(ts: seq<string>, ns: seq<nat>): string
    requires |ts| >= 1 && |ns| == |ts| - 1
  {
    if |ts| == 1 then ts[0] else ts[0] + Spaces(ns[0]) + JoinRuns(ts[1..], ns[1..])
  }

  /** `ts.join(' ')`. */
  function JoinSpaces(ts: seq<string>): string
    requires |ts| >= 1
  {
    if |ts| == 1 then ts[0] else ts[0] + " " + JoinSpaces(ts[1..])
  }

  /** All separators non-empty. */
  predicate Runs(ns: seq<nat>)
  {
    forall k :: 0 <= k < |ns| ==> ns[k] >= 1
  }

  /** A leading run of `k` spaces, followed by a non-space or the end, is skipped entirely. */
  lemma {:induction false} SkipSpacesRun(s: string, k: nat)
    requires k <= |s| && (forall i :: 0 <= i < k ==> s[i] == ' ')
    requires k == |s| || s[k] != ' '
    ensures SkipSpaces(s) == s[k..]
  {
    if k > 0 {
      assert s[1..][k - 1..] == s[k..];
      SkipSpacesRun(s[1..], k - 1);
    }
  }

  /** One step of the split: a space-free head, a run of spaces, then a rest that does not start
      with a space. */
  lemma SplitStep(head: string, n: nat, rest: string)
    requires ' ' !in head && n >= 1
    requires rest == [] || rest[0] != ' '
    ensures SplitSpaces(head + Spaces(n) + rest) == [head] + SplitSpaces(rest)
  {
    var tail := Spaces(n) + rest;
    var s := head + tail;
    assert s == head + Spaces(n) + rest;
    IndexOfSpaceConcat(head, tail);
    assert IndexOfSpace(s) == |head|;
    assert s[..|head|] == head && s[|head|..] == tail;
    SkipSpacesRun(tail, n);
    assert tail[n..] == rest;
  }

  /** Joining space-free tokens with runs of one or more spaces and splitting again gives the
      tokens back, whatever the length of each run, provided no token strictly inside the list
      is empty (an empty inner token would merge two runs into one). */
  lemma {:induction false} SplitJoinRuns(ts: seq<string>, ns: seq<nat>)
    requires |ts| >= 1 && |ns| == |ts| - 1 && Runs(ns)
    requires forall k :: 0 <= k < |ts| ==> ' ' !in ts[k]
    requires forall k :: 0 < k < |ts| - 1 ==> ts[k] != []
    ensures SplitSpaces(JoinRuns(ts, ns)) == ts
  {
    if |ts| == 1 {
      IndexOfSpaceConcat(ts[0], []);
      assert ts[0] + [] == ts[0];
    } else {
      var rest := JoinRuns(ts[1..], ns[1..]);
      JoinRunsHead(ts[1..], ns[1..]);
      SplitStep(ts[0], ns[0], rest);
      SplitJoinRuns(ts[1..], ns[1..]);
      assert ts == [ts[0]] + ts[1..];
    }
  }

  /** Single spaces are runs of length one. */
  lemma {:induction false} JoinSpacesIsRuns(ts: seq<string>)
    requires |ts| >= 1
    ensures JoinSpaces(ts) == JoinRuns(ts, seq(|ts| - 1, _ => 1))
  {
    if |ts| > 1 {
      JoinSpacesIsRuns(ts[1..]);
      assert seq(|ts| - 1, _ => 1)[1..] == seq(|ts| - 2, _ => 1);
      assert Spaces(1) == " ";
    }
  }

  /** `split(/ +/)` undoes `join(' ')` on space-free tokens whose inner tokens are non-empty. */
  lemma SplitJoin(ts: seq<string>)
    requires |ts| >= 1
    requires forall k :: 0 <= k < |ts| ==> ' ' !in ts[k]
    requires forall k :: 0 < k < |ts| - 1 ==> ts[k] != []
    ensures SplitSpaces(JoinSpaces(ts)) == ts
  {
    JoinSpacesIsRuns(ts);
    SplitJoinRuns(ts, seq(|ts| - 1, _ => 1));
  }

  /** Searching past a space-free prefix. */
  lemma {:induction false} IndexOfSpaceConcat(a: string, b: string)
    requires ' ' !in a
    ensures IndexOfSpace(a + b) == |a| + IndexOfSpace(b)
  {
    if a != [] {
      assert (a + b)[0] == a[0] && a[0] in a;
      assert (a + b)[1..] == a[1..] + b;
      assert forall c :: c in a[1..] ==> c in a;
      IndexOfSpaceConcat(a[1..], b);
    } else {
      assert a + b == b;
    }
  }

  /** A joined list does not start with a space when its first token is non-empty (or is the
      only one). */
  lemma {:induction false} JoinRunsHead(ts: seq<string>, ns: seq<nat>)
    requires |ts| >= 1 && |ns| == |ts| - 1
    requires forall k :: 0 <= k < |ts| ==> ' ' !in ts[k]
    requires forall k :: 0 <= k < |ts| - 1 ==> ts[k] != []
    ensures var j := JoinRuns(ts, ns); j == [] || j[0] != ' '
  {
    if |ts| > 1 {
      assert ts[0] != [];
      assert JoinRuns(ts, ns)[0] == ts[0][0];
      assert ts[0][0] in ts[0];
    } else if ts[0] != [] {
      assert ts[0][0] in ts[0];
    }
  }

  /** A string with no whitespace character. */
  predicate NoWhitespace(t: string)
  {
    forall i :: 0 <= i < |t| ==> !IsWhitespace(t[i])
  }

  /** A join of non-empty tokens starts with the first token's first character and ends with
      the last token's last character. */
  lemma {:induction false} JoinRunsEnds(ts: seq<string>, ns: seq<nat>)
    requires |ts| >= 1 && |ns| == |ts| - 1
    requires forall k :: 0 <= k < |ts| ==> ts[k] != []
    ensures var j := JoinRuns(ts, ns);
      && j != [] && j[0] == ts[0][0]
      && j[|j| - 1] == ts[|ts| - 1][|ts[|ts| - 1]| - 1]
  {
    if |ts| > 1 {
      JoinRunsEnds(ts[1..], ns[1..]);
      var rest := JoinRuns(ts[1..], ns[1..]);
      assert JoinRuns(ts, ns) == (ts[0] + Spaces(ns[0])) + rest;
    }
  }

  /** Whitespace before `y` is dropped by `TrimStart` when `y` does not start with whitespace. */
  lemma {:induction false} TrimStartPadded(pre: string, y: string)
    requires forall i :: 0 <= i < |pre| ==> IsWhitespace(pre[i])
    requires y == [] || !IsWhitespace(y[0])
    ensures TrimStart(pre + y) == y
  {
    if pre == [] {
      assert pre + y == y;
    } else {
      assert (pre + y)[0] == pre[0];
      assert (pre + y)[1..] == pre[1..] + y;
      TrimStartPadded(pre[1..], y);
    }
  }

  /** Whitespace after `x` is dropped by `TrimEnd` when `x` does not end with whitespace. */
  lemma {:induction false} TrimEndPadded(x: string, post: string)
    requires forall i :: 0 <= i < |post| ==> IsWhitespace(post[i])
    requires x == [] || !IsWhitespace(x[|x| - 1])
    ensures TrimEnd(x + post) == x
  {
    if post == [] {
      assert x + post == x;
    } else {
      var n := |post| - 1;
      assert (x + post)[|x + post| - 1] == post[n];
      assert (x + post)[..|x + post| - 1] == x + post[..n];
      TrimEndPadded(x, post[..n]);
    }
  }

  /** `trim` removes exactly the whitespace padding around a text whose ends are not whitespace. */
  lemma TrimPadded(pre: string, x: string, post: string)
    requires forall i :: 0 <= i < |pre| ==> IsWhitespace(pre[i])
    requires forall i :: 0 <= i < |post| ==> IsWhitespace(post[i])
    requires x != [] && !IsWhitespace(x[0]) && !IsWhitespace(x[|x| - 1])
    ensures Trim(pre + x + post) == x
  {
    assert pre + x + post == pre + (x + post);
    TrimStartPadded(pre, x + post);
    TrimEndPadded(x, post);
  }

  /** Splitting a string that neither starts nor ends with a space yields only non-empty pieces. */
  lemma {:induction false} SplitNonEmptyPieces(s: string)
    requires s != [] && s[0] != ' ' && s[|s| - 1] != ' '
    ensures forall t :: t in SplitSpaces(s) ==> t != []
    decreases |s|
  {
    var i := IndexOfSpace(s);
    if i < |s| {
      var rest := SkipSpaces(s[i..]);
      assert i > 0;
      assert rest != [];
      assert rest[|rest| - 1] == s[|s| - 1];
      SplitNonEmptyPieces(rest);
      assert SplitSpaces(s) == [s[..i]] + SplitSpaces(rest);
    }
  }

  function LowerChar(c: char): char
  {
    if 'A' <= c <= 'Z' then (c as int + 32) as char else c
  }

  /** `s.toLowerCase()` restricted to ASCII: same length, each letter A-Z mapped to a-z, every
      other character kept. */
  function Lower(s: string): (r: string)
    ensures |r| == |s|
    ensures forall i :: 0 <= i < |s| ==> r[i] == LowerChar(s[i])
  {
    if s == [] then [] else [LowerChar(s[0])] + Lower(s[1..])
  }

  /** Lowercasing twice is lowercasing once. */
  lemma LowerIdempotent(s: string)
    ensures Lower(Lower(s)) == Lower(s)
  {
    assert forall i :: 0 <= i < |s| ==> Lower(Lower(s))[i] == Lower(s)[i];
  }
}
