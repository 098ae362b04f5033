/**
 * The few JavaScript string operations the extension applies to the text git
 * prints, with their ECMAScript semantics written out: `split` on a one-character
 * separator, `filter(Boolean)` on the fields, `replace` with a string pattern,
 * `substring` with one argument, `trim`, and the truthiness of an optional string.
 */
module JsString {
  import opened Wrappers

  /** `if (v)` on a value that is a string or `undefined`: the empty string is falsy too. */
  predicate Truthy(v: Option<string>) {
    v.Some? && v.value != []
  }

  /** The characters `String.prototype.trim` removes: the WhiteSpace and
      LineTerminator code points of ECMAScript (tab, vertical tab, form feed,
      space, no-break space, byte order mark, every Unicode space separator,
      line feed, carriage return, line and paragraph separator). */
  predicate IsWhitespace(c: char) {
    || c == '\t' || c == '\n' || c == '\U{000B}' || c == '\U{000C}' || c == '\r'
    || c == ' ' || c == '\U{00A0}' || c == '\U{1680}'
    || ('\U{2000}' <= c <= '\U{200A}')
    || c == '\U{2028}' || c == '\U{2029}' || c == '\U{202F}' || c == '\U{205F}'
    || c == '\U{3000}' || c == '\U{FEFF}'
  }

  ghost predicate AllWhitespace(s: string) {
    forall i :: 0 <= i < |s| ==> IsWhitespace(s[i])
  }

  /** A string `trim` leaves as it is: empty, or neither end is whitespace. */
  ghost predicate IsTrimmed(s: string) {
    s == [] || (!IsWhitespace(s[0]) && !IsWhitespace(s[|s| - 1]))
  }

  // ---------------------------------------------------------------- split

  /** `s.split(sep)` for a one-character separator: the maximal runs between
      separators, in order; there is always at least one field ("" gives [""]). */
  function Split(s: string, sep: char): (fields: seq<string>)
    ensures |fields| >= 1
    ensures forall i :: 0 <= i < |fields| ==> sep !in fields[i]
    decreases |s|
  {
    if s == [] then [[]]
    else
      var rest := Split(s[1..], sep);
      if s[0] == sep then [[]] + rest
      else [[s[0]] + rest[0]] + rest[1..]
  }

  /** `fields.join(sep)`: the fields with one separator between neighbours. */
  function Join(fields: seq<string>, sep: char): string
  {
    if |fields| == 0 then []
    else if |fields| == 1 then fields[0]
    else fields[0] + [sep] + Join(fields[1..], sep)
  }

  /** Joining the fields of a split gives back the string: nothing is lost. */
  lemma {:induction false} JoinSplit(s: string, sep: char)
    ensures Join(Split(s, sep), sep) == s
    decreases |s|
  {
    if s != [] {
      var rest := Split(s[1..], sep);
      JoinSplit(s[1..], sep);
      assert s == [s[0]] + s[1..];
      if s[0] != sep {
        JoinExtendFirst(s[0], rest, sep);
      } else {
        assert Split(s, sep) == [[]] + rest;
        assert Join(Split(s, sep), sep) == [] + [sep] + Join(rest, sep);
      }
    }
  }

  /** Putting a character in front of the first field puts it in front of the join. */
  lemma JoinExtendFirst(c: char, fields: seq<string>, sep: char)
    requires |fields| >= 1
    ensures Join([[c] + fields[0]] + fields[1..], sep) == [c] + Join(fields, sep)
  {
  }

  /** A field free of the separator comes back whole, followed by the split of the rest. */
  lemma {:induction false} SplitCons(w: string, sep: char, t: string)
    requires sep !in w
    ensures Split(w + [sep] + t, sep) == [w] + Split(t, sep)
    decreases |w|
  {
    var s := w + [sep] + t;
    if w == [] {
      assert s[1..] == t;
    } else {
      assert s[0] == w[0];
      assert s[1..] == w[1..] + [sep] + t;
      SplitCons(w[1..], sep, t);
      assert [w[0]] + w[1..] == w;
    }
  }

  /** A string free of the separator is a single field. */
  lemma {:induction false} SplitNoSeparator(w: string, sep: char)
    requires sep !in w
    ensures Split(w, sep) == [w]
    decreases |w|
  {
    if w != [] {
      SplitNoSeparator(w[1..], sep);
      assert [w[0]] + w[1..] == w;
    }
  }

  /** Splitting a join gives back the fields, when none holds the separator:
      together with JoinSplit, `split` and `join` are inverse bijections. */
  lemma {:induction false} SplitJoin(fields: seq<string>, sep: char)
    requires |fields| >= 1
    requires forall i :: 0 <= i < |fields| ==> sep !in fields[i]
    ensures Split(Join(fields, sep), sep) == fields
    decreases |fields|
  {
    if |fields| == 1 {
      SplitNoSeparator(fields[0], sep);
    } else {
      SplitJoin(fields[1..], sep);
      SplitCons(fields[0], sep, Join(fields[1..], sep));
      assert [fields[0]] + fields[1..] == fields;
    }
  }

  // ---------------------------------------------------------------- filter(Boolean)

  /** `xs.filter(Boolean)` on strings: drops the empty ones, keeps the rest in order. */
  function DropEmpty(xs: seq<string>): (ys: seq<string>)
    ensures |ys| <= |xs|
    ensures forall i :: 0 <= i < |ys| ==> ys[i] != []
    ensures forall x :: x in ys <==> x in xs && x != []
    ensures forall x :: x != [] ==> multiset(ys)[x] == multiset(xs)[x]
  {
    if xs == [] then []
    else
      var rest := DropEmpty(xs[1..]);
      assert xs == [xs[0]] + xs[1..];
      assert multiset(xs) == multiset([xs[0]]) + multiset(xs[1..]);
      if xs[0] == [] then rest else [xs[0]] + rest
  }

  /** Filtering distributes over concatenation, so the kept strings stay in their original order. */
  lemma {:induction false} DropEmptyAppend(xs: seq<string>, zs: seq<string>)
    ensures DropEmpty(xs + zs) == DropEmpty(xs) + DropEmpty(zs)
    decreases |xs|
  {
    if xs != [] {
      assert (xs + zs)[1..] == xs[1..] + zs;
      DropEmptyAppend(xs[1..], zs);
    } else {
      assert xs + zs == zs;
    }
  }

  /** A sequence with no empty string passes the filter unchanged. */
  lemma {:induction false} DropEmptyKeeps(xs: seq<string>)
    requires forall i :: 0 <= i < |xs| ==> xs[i] != []
    ensures DropEmpty(xs) == xs
    decreases |xs|
  {
    if xs != [] {
      DropEmptyKeeps(xs[1..]);
    }
  }

  // ---------------------------------------------------------------- replace

  /** `s.indexOf(c)`: the first position of `c`, or -1 when it does not occur. */
  function IndexOf(s: string, c: char): (i: int)
    ensures -1 <= i < |s|
    ensures i == -1 <==> c !in s
    ensures 0 <= i ==> s[i] == c && forall k :: 0 <= k < i ==> s[k] != c
    decreases |s|
  {
    if s == [] then -1
    else if s[0] == c then 0
    else
      var j := IndexOf(s[1..], c);
      if j < 0 then -1 else j + 1
  }

  /** `s.replace(c, "")` with a one-character string pattern: only the first
      occurrence of `c` is removed, wherever it is; without one, `s` is unchanged. */
  function RemoveFirst(s: string, c: char): (r: string)
    ensures c !in s ==> r == s
    ensures |r| == if c in s then |s| - 1 else |s|
    decreases |s|
  {
    if s == [] then []
    else if s[0] == c then s[1..]
    else [s[0]] + RemoveFirst(s[1..], c)
  }

  /** The character removed is the one at `s.indexOf(c)`; everything before and after it stays, in order. */
  lemma {:induction false} RemoveFirstAtIndexOf(s: string, c: char)
    requires c in s
    ensures RemoveFirst(s, c) == s[..IndexOf(s, c)] + s[IndexOf(s, c) + 1..]
    decreases |s|
  {
    if s[0] != c {
      var j := IndexOf(s[1..], c);
      RemoveFirstAtIndexOf(s[1..], c);
      assert s[..j + 1] == [s[0]] + s[1..][..j];
      assert s[j + 2..] == s[1..][j + 1..];
    }
  }

  // ---------------------------------------------------------------- substring

  /** `s.substring(start)`: the characters from `start` on, and "" when `s` is shorter. */
  function SubstringFrom(s: string, start: nat): (r: string)
    ensures |r| == if |s| <= start then 0 else |s| - start
    ensures start <= |s| ==> s == s[..start] + r
  {
    if start <= |s| then s[start..] else []
  }

  // ---------------------------------------------------------------- trim

  /** `s.trimStart()`: drops whitespace from the front, stopping at the first other character. */
  function TrimStart(s: string): (r: string)
    ensures |r| <= |s|
    ensures r == [] || !IsWhitespace(r[0])
    decreases |s|
  {
    if s == [] || !IsWhitespace(s[0]) then s else TrimStart(s[1..])
  }

  /** `s.trimEnd()`: drops whitespace from the back, stopping at the last other character. */
  function TrimEnd(s: string): (r: string)
    ensures |r| <= |s|
    ensures r == [] || !IsWhitespace(r[|r| - 1])
    decreases |s|
  {
    if s == [] || !IsWhitespace(s[|s| - 1]) then s else TrimEnd(s[..|s| - 1])
  }

  /** `trimStart` keeps a suffix and drops only whitespace. */
  lemma {:induction false} TrimStartCuts(s: string)
    ensures TrimStart(s) == s[|s| - |TrimStart(s)|..]
    ensures forall i :: 0 <= i < |s| - |TrimStart(s)| ==> IsWhitespace(s[i])
    decreases |s|
  {
    if s != [] && IsWhitespace(s[0]) {
      TrimStartCuts(s[1..]);
      assert forall i :: 1 <= i < |s| ==> s[i] == s[1..][i - 1];
    }
  }

  /** `trimEnd` keeps a prefix and drops only whitespace. */
  lemma {:induction false} TrimEndCuts(s: string)
    ensures TrimEnd(s) == s[..|TrimEnd(s)|]
    ensures forall i :: |TrimEnd(s)| <= i < |s| ==> IsWhitespace(s[i])
    decreases |s|
  {
    if s != [] && IsWhitespace(s[|s| - 1]) {
      TrimEndCuts(s[..|s| - 1]);
      assert forall i :: 0 <= i < |s| - 1 ==> s[i] == s[..|s| - 1][i];
    }
  }

  /** `s.trim()`: `s` without its leading and trailing whitespace. */
  function Trim(s: string): (r: string)
    ensures |r| <= |s|
    ensures IsTrimmed(r)
  {
    var a := TrimStart(s);
    TrimEndCuts(a);
    TrimEnd(a)
  }

  /** `s` is `r` at offset `i`, with only whitespace before and after it. */
  ghost predicate PaddedAt(s: string, r: string, i: int) {
    0 <= i <= |s| - |r| && r == s[i..i + |r|]
    && AllWhitespace(s[..i]) && AllWhitespace(s[i + |r|..])
  }

  /** What `trim` keeps is an infix of `s`, and what it cuts off on either side is all whitespace. */
  lemma TrimIsInfix(s: string)
    ensures exists i :: PaddedAt(s, Trim(s), i)
  {
    var a := TrimStart(s);
    var r := TrimEnd(a);
    var i := |s| - |a|;
    TrimStartCuts(s);
    TrimEndCuts(a);
    assert a == s[i..];
    assert r == a[..|r|] == s[i..i + |r|];
    var pre, post := s[..i], s[i + |r|..];
    assert AllWhitespace(pre) by {
      forall j | 0 <= j < |pre| ensures IsWhitespace(pre[j]) {
        assert pre[j] == s[j];
      }
    }
    assert AllWhitespace(post) by {
      forall j | 0 <= j < |post| ensures IsWhitespace(post[j]) {
        assert post[j] == s[i + |r| + j] == a[|r| + j];
      }
    }
    assert r == Trim(s);
    assert PaddedAt(s, Trim(s), i);
  }

  lemma {:induction false} TrimStartPadded(p: string, m: string)
    requires AllWhitespace(p)
    requires m == [] || !IsWhitespace(m[0])
    ensures TrimStart(p + m) == m
    decreases |p|
  {
    if p != [] {
      assert (p + m)[1..] == p[1..] + m;
      TrimStartPadded(p[1..], m);
    } else {
      assert p + m == m;
    }
  }

  lemma {:induction false} TrimEndPadded(m: string, q: string)
    requires AllWhitespace(q)
    requires m == [] || !IsWhitespace(m[|m| - 1])
    ensures TrimEnd(m + q) == m
    decreases |q|
  {
    if q != [] {
      var q' := q[..|q| - 1];
      assert (m + q)[..|m + q| - 1] == m + q';
      TrimEndPadded(m, q');
    } else {
      assert m + q == m;
    }
  }

  /** The converse of TrimIsInfix: any trimmed string wrapped in whitespace on
      both sides trims back to itself. Together the two pin the result of
      `trim` down completely. */
  lemma {:induction false} TrimPadded(p: string, m: string, q: string)
    requires AllWhitespace(p) && AllWhitespace(q)
    requires IsTrimmed(m)
    ensures Trim(p + m + q) == m
  {
    if m == [] {
      assert p + m + q == p + q;
      assert AllWhitespace(p + q);
      TrimStartPadded(p + q, []);
      assert p + q + [] == p + q;
      assert TrimStart(p + q) == [];
    } else {
      assert p + m + q == p + (m + q);
      TrimStartPadded(p, m + q);
      TrimEndPadded(m, q);
    }
  }

  /** Trimming twice is trimming once. */
  lemma TrimIdempotent(s: string)
    ensures Trim(Trim(s)) == Trim(s)
  {
  }
}
