/** The string primitives the servers rely on, stated over `seq<char>`:
    JavaScript's white-space class, ASCII lower-casing, `includes`,
    `split`/`join` with a string separator and `replace(/\s+/g, rep)`. */
module Text {

  /** The characters JavaScript's `\s` class and `String.prototype.trim`
      treat as white space (the WhiteSpace and LineTerminator characters). */
  predicate IsSpace(c: char) {
    || c == ' ' || c == '\t' || c == '\n' || c == '\U{B}' || c == '\U{C}' || c == '\r'
    || c == '\U{A0}' || c == '\U{1680}' || ('\U{2000}' <= c <= '\U{200A}')
    || c == '\U{2028}' || c == '\U{2029}' || c == '\U{202F}' || c == '\U{205F}'
    || c == '\U{3000}' || c == '\U{FEFF}'
  }

  /** `s.trim() === ""`: nothing but white space. */
  predicate IsBlank(s: string) {
    forall i :: 0 <= i < |s| ==> IsSpace(s[i])
  }

  /** No white space at all. */
  predicate NoSpace(s: string) {
    forall i :: 0 <= i < |s| ==> !IsSpace(s[i])
  }

  lemma NoSpaceConcat(a: string, b: string)
    requires NoSpace(a) && NoSpace(b)
    ensures NoSpace(a + b)
  {
    forall i | 0 <= i < |a + b| ensures !IsSpace((a + b)[i]) {
      if i >= |a| {
        assert (a + b)[i] == b[i - |a|];
      }
    }
  }

  function LowerChar(c: char): char {
    if 'A' <= c <= 'Z' then (c as int + 32) as char else c
  }

  /** `toLowerCase()` restricted to ASCII letters. */
  function Lower(s: string): (r: string)
    ensures |r| == |s|
    ensures forall i :: 0 <= i < |s| ==> r[i] == LowerChar(s[i])
  {
    seq(|s|, i requires 0 <= i < |s| => LowerChar(s[i]))
  }

  lemma LowerAppend(a: string, b: string)
    ensures Lower(a + b) == Lower(a) + Lower(b)
  {
    assert forall i :: 0 <= i < |a + b| ==> Lower(a + b)[i] == (Lower(a) + Lower(b))[i];
  }

  predicate OccursAt(s: string, p: string, i: int) {
    0 <= i && i + |p| <= |s| && s[i..i + |p|] == p
  }

  /** `s.includes(p)` */
  predicate Contains(s: string, p: string) {
    exists i :: 0 <= i <= |s| - |p| && OccursAt(s, p, i)
  }

  lemma EmptyContainsNothing(p: string)
    requires p != []
    ensures !Contains([], p)
  {}

  /** `p` does not occur in `a + [c] + b` unless it occurs in `a` or in `b`,
      when `p` does not contain `c`. */
  lemma {:induction false} ContainsAcross(a: string, c: char, b: string, p: string)
    requires forall j :: 0 <= j < |p| ==> p[j] != c
    ensures Contains(a + [c] + b, p) ==> Contains(a, p) || Contains(b, p)
  {
    var s := a + [c] + b;
    if Contains(s, p) {
      var i :| 0 <= i <= |s| - |p| && OccursAt(s, p, i);
      if i + |p| <= |a| {
        assert s[i..i + |p|] == a[i..i + |p|];
        assert OccursAt(a, p, i);
      } else if i > |a| {
        assert s == (a + [c]) + b;
        UnshiftOccurrence(b, a + [c], p, i);
      } else {
        StraddlingOccurrence(a, c, b, p, i);
        assert false;
      }
    }
  }

  lemma StraddlingOccurrence(a: string, c: char, b: string, p: string, i: int)
    requires OccursAt(a + [c] + b, p, i) && i <= |a| < i + |p|
    ensures p[|a| - i] == c
  {
    assert (a + [c] + b)[i..i + |p|][|a| - i] == (a + [c] + b)[|a|];
  }

  lemma {:induction false} ContainsIn(a: string, b: string, p: string)
    ensures Contains(a, p) ==> Contains(a + b, p)
    ensures Contains(b, p) ==> Contains(a + b, p)
  {
    if Contains(a, p) {
      var i :| 0 <= i <= |a| - |p| && OccursAt(a, p, i);
      assert (a + b)[i..i + |p|] == a[i..i + |p|];
      assert OccursAt(a + b, p, i);
    }
    if Contains(b, p) {
      var i :| 0 <= i <= |b| - |p| && OccursAt(b, p, i);
      assert (a + b)[|a| + i..|a| + i + |p|] == b[i..i + |p|];
      assert OccursAt(a + b, p, |a| + i);
    }
  }

  /** `s.split(sep)` for a non-empty separator: scanning from the left, every
      occurrence of `sep` ends one part and is skipped, so `k` occurrences give
      `k + 1` parts (the empty string gives one empty part). */
  function Split(s: string, sep: string): (parts: seq<string>)
    requires sep != []
    ensures |parts| >= 1
    decreases |s|
  {
    if s == [] then [[]]
    else if sep <= s then [[]] + Split(s[|sep|..], sep)
    else
      var rest := Split(s[1..], sep);
      [[s[0]] + rest[0]] + rest[1..]
  }

  /** `parts.join(sep)` */
  function Join(parts: seq<string>, sep: string): string {
    if |parts| == 0 then []
    else if |parts| == 1 then parts[0]
    else parts[0] + sep + Join(parts[1..], sep)
  }

  lemma JoinCons(c: char, parts: seq<string>, sep: string)
    requires |parts| >= 1
    ensures Join([[c] + parts[0]] + parts[1..], sep) == [c] + Join(parts, sep)
  {
    var q := [[c] + parts[0]] + parts[1..];
    assert q[1..] == parts[1..];
  }

  /** Joining the parts of a split with the same separator gives back the input. */
  lemma {:induction false} JoinSplit(s: string, sep: string)
    requires sep != []
    ensures Join(Split(s, sep), sep) == s
    decreases |s|
  {
    if s == [] {
    } else if sep <= s {
      JoinSplit(s[|sep|..], sep);
      JoinSplitSkip(s, sep);
    } else {
      JoinSplit(s[1..], sep);
      JoinSplitKeep(s, sep);
    }
  }

  lemma JoinSplitSkip(s: string, sep: string)
    requires sep != [] && s != [] && sep <= s
    requires Join(Split(s[|sep|..], sep), sep) == s[|sep|..]
    ensures Join(Split(s, sep), sep) == s
  {
    PrefixRest(s, sep);
    JoinEmptyCons(Split(s[|sep|..], sep), sep);
  }

  lemma PrefixRest(s: string, sep: string)
    requires sep <= s
    ensures s == sep + s[|sep|..]
  {
    assert s[..|sep|] == sep;
  }

  lemma JoinEmptyCons(parts: seq<string>, sep: string)
    requires |parts| >= 1
    ensures Join([[]] + parts, sep) == sep + Join(parts, sep)
  {
    assert ([[]] + parts)[1..] == parts;
  }

  lemma JoinSplitKeep(s: string, sep: string)
    requires sep != [] && s != [] && !(sep <= s)
    requires Join(Split(s[1..], sep), sep) == s[1..]
    ensures Join(Split(s, sep), sep) == s
  {
    var rest := Split(s[1..], sep);
    assert Split(s, sep) == [[s[0]] + rest[0]] + rest[1..];
    JoinCons(s[0], rest, sep);
    assert s == [s[0]] + s[1..];
  }

  /** No part of a split contains the separator, and the first part is a
      prefix of the input. */
  lemma {:induction false} SplitPartsFree(s: string, sep: string)
    requires sep != []
    ensures Split(s, sep)[0] <= s
    ensures forall k :: 0 <= k < |Split(s, sep)| ==> !Contains(Split(s, sep)[k], sep)
    decreases |s|
  {
    var parts := Split(s, sep);
    if s == [] {
      EmptyContainsNothing(sep);
    } else if sep <= s {
      var tail := Split(s[|sep|..], sep);
      SplitPartsFree(s[|sep|..], sep);
      EmptyContainsNothing(sep);
      forall k | 1 <= k < |parts| ensures !Contains(parts[k], sep) {
        assert parts[k] == tail[k - 1];
      }
    } else {
      var rest := Split(s[1..], sep);
      SplitPartsFree(s[1..], sep);
      KeptHeadFree(s, sep, rest[0]);
      forall k | 1 <= k < |parts| ensures !Contains(parts[k], sep) {
        assert parts[k] == rest[k];
      }
    }
  }

  /** A first piece extended by a character that does not start the
      separator stays a prefix free of the separator. */
  lemma KeptHeadFree(s: string, sep: string, piece: string)
    requires sep != [] && s != [] && !(sep <= s)
    requires piece <= s[1..] && !Contains(piece, sep)
    ensures [s[0]] + piece <= s && !Contains([s[0]] + piece, sep)
  {
    var head := [s[0]] + piece;
    assert head <= s;
    forall i ensures !OccursAt(head, sep, i) {
      if i == 0 {
        assert |sep| <= |head| ==> s[..|sep|] == head[..|sep|];
      } else if i > 0 {
        assert i + |sep| <= |head| ==> head[i..i + |sep|] == piece[i - 1..i - 1 + |sep|];
        assert !OccursAt(piece, sep, i - 1);
      }
    }
  }

  /** A string without the separator splits into itself alone. */
  lemma {:induction false} SplitAbsent(s: string, sep: string)
    requires sep != []
    ensures !Contains(s, sep) ==> Split(s, sep) == [s]
  {
    if !Contains(s, sep) {
      JoinSplit(s, sep);
      var parts := Split(s, sep);
      if |parts| >= 2 {
        // then s = parts[0] + sep + ..., an occurrence of sep
        assert s == parts[0] + sep + Join(parts[1..], sep);
        assert s[|parts[0]|..|parts[0]| + |sep|] == sep;
        assert OccursAt(s, sep, |parts[0]|);
      }
    }
  }

  /** A one-character pattern occurs exactly when the character does. */
  lemma ContainsChar(s: string, c: char)
    ensures Contains(s, [c]) <==> c in s
  {
    if c in s {
      var i :| 0 <= i < |s| && s[i] == c;
      assert s[i..i + 1] == [c];
      assert OccursAt(s, [c], i);
    }
    if Contains(s, [c]) {
      var i :| 0 <= i <= |s| - 1 && OccursAt(s, [c], i);
      assert s[i] == s[i..i + 1][0];
    }
  }

  lemma {:induction false} SplitWord(x: string, c: char, rest: string)
    requires c !in x
    ensures Split(x + [c] + rest, [c]) == [x] + Split(rest, [c])
    ensures Split(x, [c]) == [x]
    decreases |x|
  {
    if x == [] {
      assert [] + [c] + rest == [c] + rest;
      assert ([c] + rest)[1..] == rest;
    } else {
      SplitWord(x[1..], c, rest);
      var s := x + [c] + rest;
      assert s[0] == x[0] && s[1..] == x[1..] + [c] + rest;
      assert !([c] <= s);
      assert !([c] <= x);
      assert x == [x[0]] + x[1..];
    }
  }

  /** Splitting a join of separator-free words by the same one-character
      separator gives back the words. */
  lemma {:induction false} SplitJoin(ws: seq<string>, c: char)
    requires |ws| >= 1 && forall k :: 0 <= k < |ws| ==> c !in ws[k]
    ensures Split(Join(ws, [c]), [c]) == ws
    decreases |ws|
  {
    if |ws| == 1 {
      SplitWord(ws[0], c, []);
    } else {
      SplitJoin(ws[1..], c);
      SplitWord(ws[0], c, Join(ws[1..], [c]));
      assert ws == [ws[0]] + ws[1..];
    }
  }

  function CountChar(s: string, c: char): nat {
    if s == [] then 0 else (if s[0] == c then 1 else 0) + CountChar(s[1..], c)
  }

  /** Splitting on one character gives one more part than it has occurrences:
      `text.split("\n").length` is the number of line feeds plus one. */
  lemma {:induction false} SplitCountsSeparators(s: string, c: char)
    ensures |Split(s, [c])| == CountChar(s, c) + 1
    decreases |s|
  {
    if s != [] {
      SplitCountsSeparators(s[1..], c);
      assert [c] <= s <==> s[0] == c;
      assert s[|[c]|..] == s[1..];
    }
  }

  /** `s.split(p).join(v)`: every occurrence of `p` found by the left-to-right
      scan replaced by `v`. */
  function ReplaceAll(s: string, p: string, v: string): (r: string)
    requires p != []
  {
    Join(Split(s, p), v)
  }

  /** What the split/join replacement means: the input is cut into pieces that
      do not contain `p`, glued back by `p`; the result glues the same pieces by
      `v`. A pattern that does not occur leaves the input unchanged. */
  lemma ReplaceAllMeaning(s: string, p: string, v: string)
    requires p != []
    ensures var parts := Split(s, p);
      && Join(parts, p) == s
      && ReplaceAll(s, p, v) == Join(parts, v)
      && (forall k :: 0 <= k < |parts| ==> !Contains(parts[k], p))
    ensures !Contains(s, p) ==> ReplaceAll(s, p, v) == s
  {
    JoinSplit(s, p);
    SplitPartsFree(s, p);
    SplitAbsent(s, p);
  }

  /** The length of the leading white-space run. */
  function LeadingSpaces(s: string): (k: nat)
    ensures k <= |s| && IsBlank(s[..k])
    ensures k < |s| ==> !IsSpace(s[k])
    decreases |s|
  {
    if s != [] && IsSpace(s[0]) then
      var k := LeadingSpaces(s[1..]);
      assert s[..k + 1] == [s[0]] + s[1..][..k];
      assert forall i :: 1 <= i <= k ==> s[i] == s[1..][i - 1];
      assert k + 1 < |s| ==> s[k + 1] == s[1..][k];
      k + 1
    else 0
  }

  /** `s.replace(/\s+/g, rep)`: every maximal white-space run becomes `rep`. */
  function CollapseSpaces(s: string, rep: string): string
    decreases |s|
  {
    if s == [] then []
    else if IsSpace(s[0]) then rep + CollapseSpaces(s[LeadingSpaces(s)..], rep)
    else [s[0]] + CollapseSpaces(s[1..], rep)
  }

  /** The characters of `s` that are not white space, in order. */
  function NonSpaces(s: string): string {
    if s == [] then [] else (if IsSpace(s[0]) then [] else [s[0]]) + NonSpaces(s[1..])
  }

  lemma {:induction false} NonSpacesAppend(a: string, b: string)
    ensures NonSpaces(a + b) == NonSpaces(a) + NonSpaces(b)
    decreases |a|
  {
    if a != [] {
      assert (a + b)[0] == a[0];
      assert (a + b)[1..] == a[1..] + b;
      NonSpacesAppend(a[1..], b);
      assert NonSpaces(a + b) == (if IsSpace(a[0]) then [] else [a[0]]) + NonSpaces(a[1..] + b);
    } else {
      assert a + b == b;
    }
  }

  lemma {:induction false} NonSpacesBlank(s: string)
    ensures IsBlank(s) <==> NonSpaces(s) == []
    decreases |s|
  {
    if s != [] {
      NonSpacesBlank(s[1..]);
      assert IsBlank(s) <==> IsSpace(s[0]) && IsBlank(s[1..]);
    }
  }

  lemma CollapseStart(s: string, rep: string)
    requires s != [] && !IsSpace(s[0])
    ensures CollapseSpaces(s, rep) != [] && CollapseSpaces(s, rep)[0] == s[0]
  {}

  /** Collapsing white space with a blank replacement keeps every other
      character, in order. */
  lemma {:induction false} CollapseKeepsContent(s: string, rep: string)
    requires IsBlank(rep)
    ensures NonSpaces(CollapseSpaces(s, rep)) == NonSpaces(s)
    decreases |s|
  {
    if s == [] {
    } else if IsSpace(s[0]) {
      var k := LeadingSpaces(s);
      var d := s[k..];
      var t := CollapseSpaces(d, rep);
      CollapseKeepsContent(d, rep);
      assert CollapseSpaces(s, rep) == rep + t;
      NonSpacesAppend(rep, t);
      NonSpacesBlank(rep);
      assert s == s[..k] + d;
      NonSpacesAppend(s[..k], d);
      NonSpacesBlank(s[..k]);
    } else {
      var t := CollapseSpaces(s[1..], rep);
      CollapseKeepsContent(s[1..], rep);
      assert CollapseSpaces(s, rep) == [s[0]] + t;
      NonSpacesAppend([s[0]], t);
      assert s == [s[0]] + s[1..];
      NonSpacesAppend([s[0]], s[1..]);
    }
  }

  /** Every white-space character is a plain space and no two are adjacent. */
  predicate SingleSpaced(s: string) {
    forall i :: 0 <= i < |s| && IsSpace(s[i]) ==> s[i] == ' ' && (i + 1 < |s| ==> !IsSpace(s[i + 1]))
  }

  /** `replace(/\s+/g, " ")` leaves only single plain spaces. */
  lemma {:induction false} CollapseSingleSpaced(s: string)
    ensures SingleSpaced(CollapseSpaces(s, " "))
    decreases |s|
  {
    if s == [] {
    } else if IsSpace(s[0]) {
      var d := s[LeadingSpaces(s)..];
      CollapseSingleSpaced(d);
      if d != [] {
        CollapseStart(d, " ");
      }
      var x := CollapseSpaces(d, " ");
      assert CollapseSpaces(s, " ") == " " + x;
      assert forall i :: 1 <= i < |" " + x| ==> (" " + x)[i] == x[i - 1];
    } else {
      CollapseSingleSpaced(s[1..]);
      var x := CollapseSpaces(s[1..], " ");
      assert CollapseSpaces(s, " ") == [s[0]] + x;
      assert forall i :: 1 <= i < |[s[0]] + x| ==> ([s[0]] + x)[i] == x[i - 1];
    }
  }

  /** `replace(/\s+/g, rep)` with a replacement free of white space leaves no
      white space at all. */
  lemma {:induction false} CollapseRemovesSpaces(s: string, rep: string)
    requires NoSpace(rep)
    ensures NoSpace(CollapseSpaces(s, rep))
    decreases |s|
  {
    if s == [] {
    } else if IsSpace(s[0]) {
      CollapseRemovesSpaces(s[LeadingSpaces(s)..], rep);
    } else {
      CollapseRemovesSpaces(s[1..], rep);
    }
  }

  /** A non-blank line stays non-blank after collapsing. */
  lemma CollapseNonBlank(s: string)
    ensures !IsBlank(s) ==> !IsBlank(CollapseSpaces(s, " "))
  {
    CollapseKeepsContent(s, " ");
    NonSpacesBlank(s);
    NonSpacesBlank(CollapseSpaces(s, " "));
  }

  lemma {:induction false} CollapsePrefix(q: string, x: string)
    requires NoSpace(q) && q <= CollapseSpaces(x, " ")
    ensures q <= x
    decreases |x|
  {
    if q == [] {
    } else if x == [] {
      assert false;
    } else if IsSpace(x[0]) {
      assert false;
    } else {
      var t := CollapseSpaces(x[1..], " ");
      assert CollapseSpaces(x, " ") == [x[0]] + t;
      assert q == [q[0]] + q[1..];
      assert q[1..] <= t;
      CollapsePrefix(q[1..], x[1..]);
      assert x == [x[0]] + x[1..];
    }
  }

  lemma ShiftOccurrence(t: string, pre: string, p: string, i: int)
    requires OccursAt(t, p, i)
    ensures OccursAt(pre + t, p, |pre| + i)
  {
    assert (pre + t)[|pre| + i..|pre| + i + |p|] == t[i..i + |p|];
  }

  lemma UnshiftOccurrence(t: string, pre: string, p: string, i: int)
    requires OccursAt(pre + t, p, i) && i >= |pre|
    ensures OccursAt(t, p, i - |pre|)
  {
    assert (pre + t)[i..i + |p|] == t[i - |pre|..i - |pre| + |p|];
  }

  /** Collapsing white space never creates an occurrence of a pattern that has
      no white space in it. */
  lemma {:induction false} CollapseNoNewOccurrence(s: string, p: string)
    requires NoSpace(p) && p != []
    ensures Contains(CollapseSpaces(s, " "), p) ==> Contains(s, p)
    decreases |s|
  {
    if Contains(CollapseSpaces(s, " "), p) && s != [] {
      if IsSpace(s[0]) {
        CollapseNoNewOccurrence(s[LeadingSpaces(s)..], p);
        SpaceRunOccurrence(s, p);
      } else {
        CollapseNoNewOccurrence(s[1..], p);
        KeptCharOccurrence(s, p);
      }
    }
  }

  /** An occurrence after a collapsed run of white space lies after the run
      in the original text. */
  lemma SpaceRunOccurrence(s: string, p: string)
    requires NoSpace(p) && p != [] && s != [] && IsSpace(s[0])
    requires Contains(CollapseSpaces(s, " "), p)
    requires Contains(CollapseSpaces(s[LeadingSpaces(s)..], " "), p) ==> Contains(s[LeadingSpaces(s)..], p)
    ensures Contains(s, p)
  {
    var c := CollapseSpaces(s, " ");
    var i :| 0 <= i <= |c| - |p| && OccursAt(c, p, i);
    var k := LeadingSpaces(s);
    var t := CollapseSpaces(s[k..], " ");
    assert c == " " + t;
    assert c[i] == p[0];
    assert i != 0;
    UnshiftOccurrence(t, " ", p, i);
    var j :| 0 <= j <= |s[k..]| - |p| && OccursAt(s[k..], p, j);
    assert s == s[..k] + s[k..];
    ShiftOccurrence(s[k..], s[..k], p, j);
  }

  /** An occurrence in the collapsed text after a kept character is an
      occurrence at the start or one in the rest of the original. */
  lemma KeptCharOccurrence(s: string, p: string)
    requires NoSpace(p) && p != [] && s != [] && !IsSpace(s[0])
    requires Contains(CollapseSpaces(s, " "), p)
    requires Contains(CollapseSpaces(s[1..], " "), p) ==> Contains(s[1..], p)
    ensures Contains(s, p)
  {
    var c := CollapseSpaces(s, " ");
    var i :| 0 <= i <= |c| - |p| && OccursAt(c, p, i);
    if i == 0 {
      CollapsePrefix(p, s);
      assert OccursAt(s, p, 0);
    } else {
      var t := CollapseSpaces(s[1..], " ");
      assert c == [s[0]] + t;
      UnshiftOccurrence(t, [s[0]], p, i);
      var j :| 0 <= j <= |s[1..]| - |p| && OccursAt(s[1..], p, j);
      assert s == [s[0]] + s[1..];
      ShiftOccurrence(s[1..], [s[0]], p, j);
    }
  }

  function DigitChar(d: nat): char
    requires d < 10
  {
    "0123456789"[d]
  }

  /** Decimal rendering of a natural number, as template literals print it. */
  function NatToString(n: nat): (s: string)
    ensures s != []
    decreases n
  {
    if n < 10 then [DigitChar(n)] else NatToString(n / 10) + [DigitChar(n % 10)]
  }
}
