/** Guessing which capability a failed request was missing, from the words
    around the first keyword of its error text. */
module Capability {
  import opened Text

  /** The keywords of the pattern `/capability|missing|need|require/i`. */
  const Keywords: seq<string> := ["capability", "missing", "need", "require"]

  /** The words that a window around the keyword may hold on either side. */
  const Reach: nat := 2

  lemma KeywordsHaveNoSpace()
    ensures forall k, j :: 0 <= k < |Keywords| && 0 <= j < |Keywords[k]| ==> Keywords[k][j] != ' '
  {
  }

  /** Some keyword occurs in `s`, ignoring ASCII case. */
  predicate Mentions(s: string) {
    exists k :: 0 <= k < |Keywords| && Contains(Lower(s), Keywords[k])
  }

  function Max(a: int, b: int): int { if a < b then b else a }
  function Min(a: int, b: int): int { if a < b then a else b }

  /** Position of the first word that mentions a keyword, if any. */
  function FirstMentioning(words: seq<string>): (r: int)
    ensures -1 <= r < |words|
    ensures r >= 0 ==> Mentions(words[r])
    ensures forall j :: 0 <= j < |words| && (r < 0 || j < r) ==> !Mentions(words[j])
    decreases |words|
  {
    if words == [] then -1
    else if Mentions(words[0]) then 0
    else
      var i := FirstMentioning(words[1..]);
      if i < 0 then -1 else i + 1
  }

  /** `extractCapability`: up to two words on each side of the first word
      holding a keyword, joined by single spaces, or "unknown". */
  function ExtractCapability(error: string): string {
    var words := Split(error, " ");
    var i := FirstMentioning(words);
    if i < 0 then "unknown"
    else Join(words[Max(0, i - Reach)..Min(|words|, i + Reach + 1)], " ")
  }

  /** A keyword occurs in a space-joined text exactly when it occurs in one
      of the joined words (keywords hold no space). */
  lemma {:induction false} JoinedMentions(ws: seq<string>, kw: string)
    requires |ws| >= 1 && forall j :: 0 <= j < |kw| ==> kw[j] != ' '
    ensures Contains(Lower(Join(ws, " ")), kw) <==> exists j :: 0 <= j < |ws| && Contains(Lower(ws[j]), kw)
    decreases |ws|
  {
    if |ws| > 1 {
      var rest := Join(ws[1..], " ");
      assert Join(ws, " ") == ws[0] + " " + rest;
      LowerAppend(ws[0] + " ", rest);
      LowerAppend(ws[0], " ");
      assert Lower(" ") == " ";
      var a, b := Lower(ws[0]), Lower(rest);
      assert Lower(Join(ws, " ")) == a + [' '] + b;
      JoinedMentions(ws[1..], kw);
      if Contains(a + [' '] + b, kw) {
        ContainsAcross(a, ' ', b, kw);
        if Contains(b, kw) {
          var j :| 0 <= j < |ws[1..]| && Contains(Lower(ws[1..][j]), kw);
          assert Contains(Lower(ws[j + 1]), kw);
        }
      }
      if exists j :: 0 <= j < |ws| && Contains(Lower(ws[j]), kw) {
        var j :| 0 <= j < |ws| && Contains(Lower(ws[j]), kw);
        ContainsIn(a + [' '], b, kw);
        ContainsIn(a, [' '], kw);
        if j == 0 {
          assert Contains(a + [' '], kw);
        } else {
          assert Contains(Lower(ws[1..][j - 1]), kw);
        }
      }
    }
  }

  /** The same, for the whole keyword list. */
  lemma JoinedMentionsAny(ws: seq<string>)
    requires |ws| >= 1
    ensures Mentions(Join(ws, " ")) <==> exists j :: 0 <= j < |ws| && Mentions(ws[j])
  {
    KeywordsHaveNoSpace();
    forall k | 0 <= k < |Keywords| {
      JoinedMentions(ws, Keywords[k]);
    }
    if Mentions(Join(ws, " ")) {
      var k :| 0 <= k < |Keywords| && Contains(Lower(Join(ws, " ")), Keywords[k]);
      var j :| 0 <= j < |ws| && Contains(Lower(ws[j]), Keywords[k]);
      assert Mentions(ws[j]);
    }
    if exists j :: 0 <= j < |ws| && Mentions(ws[j]) {
      var j :| 0 <= j < |ws| && Mentions(ws[j]);
      var k :| 0 <= k < |Keywords| && Contains(Lower(ws[j]), Keywords[k]);
      assert Contains(Lower(Join(ws, " ")), Keywords[k]);
    }
  }

  lemma UnknownMentionsNothing()
    ensures !Mentions("unknown")
  {
    assert "unknown" == Lower("unknown");
    forall k | 0 <= k < |Keywords| ensures !Contains("unknown", Keywords[k]) {
      forall p | 0 <= p <= |"unknown"| - |Keywords[k]| ensures !OccursAt("unknown", Keywords[k], p) {
        assert "unknown"[p] != Keywords[k][0] || "unknown"[p + 1] != Keywords[k][1];
      }
    }
  }

  lemma EmptyMentionsNothing()
    ensures !Mentions([])
  {
    assert Lower([]) == [];
    forall k | 0 <= k < |Keywords| ensures !Contains([], Keywords[k]) {
      EmptyContainsNothing(Keywords[k]);
    }
  }

  /** The words of a window of the split text come back when the window is
      joined and split again, and the window keeps the keyword word. */
  lemma WindowFacts(error: string, lo: int, i: int, hi: int)
    requires 0 <= lo <= i < hi <= |Split(error, " ")|
    requires Mentions(Split(error, " ")[i])
    ensures var window := Split(error, " ")[lo..hi];
      Split(Join(window, " "), " ") == window && Mentions(Join(window, " "))
  {
    var words := Split(error, " ");
    var window := words[lo..hi];
    assert window[i - lo] == words[i];
    JoinedMentionsAny(window);
    SplitPartsFree(error, " ");
    forall k | 0 <= k < |window| ensures ' ' !in window[k] {
      assert window[k] == words[lo + k];
      ContainsChar(window[k], ' ');
    }
    SplitJoin(window, ' ');
  }

  /** An error text yields "unknown" exactly when it mentions no keyword;
      otherwise the guess is the first word that mentions a keyword with up
      to two of its neighbours on each side, at most five words in all. */
  lemma ExtractCapabilityMeaning(error: string)
    ensures ExtractCapability(error) == "unknown" <==> !Mentions(error)
    ensures Mentions(error) ==>
      var words := Split(error, " ");
      var i := FirstMentioning(words);
      && 0 <= i
      && Split(ExtractCapability(error), " ") == words[Max(0, i - Reach)..Min(|words|, i + Reach + 1)]
    ensures Mentions(error) ==> Mentions(ExtractCapability(error))
    ensures Mentions(error) ==> 1 <= |Split(ExtractCapability(error), " ")| <= 2 * Reach + 1
    ensures ExtractCapability(error) != []
  {
    var words := Split(error, " ");
    var r := ExtractCapability(error);
    JoinSplit(error, " ");
    JoinedMentionsAny(words);
    var i := FirstMentioning(words);
    if i >= 0 {
      var lo, hi := Max(0, i - Reach), Min(|words|, i + Reach + 1);
      assert r == Join(words[lo..hi], " ");
      WindowFacts(error, lo, i, hi);
      UnknownMentionsNothing();
      EmptyMentionsNothing();
      assert |Split(r, " ")| == hi - lo;
    } else {
      assert r == "unknown";
    }
  }
}
