/** The regular-expression matcher of grep: ^ . * $ over NUL-terminated strings,
    here sequences without the NUL. */
module Grep {

  // ---- what a pattern means ----

  datatype Item = One(c: char) | Star(c: char) | End

  /** A pattern body as items, in the order in which the matcher looks: a
      following `*` first, then a final `$`, then a plain character. */
  function Items(re: string): seq<Item> {
    if re == [] then []
    else if |re| > 1 && re[1] == '*' then [Star(re[0])] + Items(re[2..])
    else if re == "$" then [End]
    else [One(re[0])] + Items(re[1..])
  }

  predicate Accepts(c: char, x: char) {
    c == '.' || c == x
  }

  /** The items match exactly the first n characters of text. */
  ghost predicate Denotes(items: seq<Item>, text: string, n: nat)
    requires n <= |text|
    decreases |items|
  {
    if items == [] then n == 0
    else match items[0]
      case End => |text| == 0 && Denotes(items[1..], text, n)
      case One(c) => n > 0 && Accepts(c, text[0]) && Denotes(items[1..], text[1..], n - 1)
      case Star(c) => exists k: nat :: StarSplit(c, text, n, k) && Denotes(items[1..], text[k..], n - k)
  }

  /** The first k of the n characters are repetitions of c. */
  predicate StarSplit(c: char, text: string, n: nat, k: nat) {
    k <= n <= |text| && forall i | 0 <= i < k :: Accepts(c, text[i])
  }

  ghost predicate MatchesHere(items: seq<Item>, text: string) {
    exists n: nat :: n <= |text| && Denotes(items, text, n)
  }

  /** The whole of grep's language: ^ anchors, otherwise any position will do. */
  ghost predicate Matches(re: string, text: string) {
    if re != [] && re[0] == '^' then MatchesHere(Items(re[1..]), text)
    else exists i :: 0 <= i <= |text| && MatchesHere(Items(re), text[i..])
  }

  // ---- how the items match ----

  lemma {:induction false} EmptyHere(text: string)
    ensures MatchesHere([], text)
  {
    assert Denotes([], text, 0);
  }

  lemma {:induction false} EndHere(text: string)
    ensures MatchesHere([End], text) <==> text == []
  {
    if text == [] {
      assert Denotes([], text, 0);
      assert Denotes([End], text, 0);
    }
  }

  lemma {:induction false} OneHere(c: char, rest: seq<Item>, text: string)
    ensures MatchesHere([One(c)] + rest, text)
       <==> text != [] && Accepts(c, text[0]) && MatchesHere(rest, text[1..])
  {
    var items := [One(c)] + rest;
    assert items[1..] == rest;
    if MatchesHere(items, text) {
      var n: nat :| n <= |text| && Denotes(items, text, n);
      assert Denotes(rest, text[1..], n - 1);
    }
    if text != [] && Accepts(c, text[0]) && MatchesHere(rest, text[1..]) {
      var n: nat :| n <= |text[1..]| && Denotes(rest, text[1..], n);
      assert Denotes(items, text, n + 1);
    }
  }

  /** Some k characters that c accepts, then the rest of the pattern. */
  lemma {:induction false} StarHere(c: char, rest: seq<Item>, text: string)
    ensures MatchesHere([Star(c)] + rest, text)
       <==> exists k: nat :: StarSplit(c, text, |text|, k) && MatchesHere(rest, text[k..])
  {
    var items := [Star(c)] + rest;
    assert items[1..] == rest;
    if MatchesHere(items, text) {
      var n: nat :| n <= |text| && Denotes(items, text, n);
      var k: nat :| StarSplit(c, text, n, k) && Denotes(rest, text[k..], n - k);
      assert StarSplit(c, text, |text|, k) && MatchesHere(rest, text[k..]);
    }
    if k: nat :| StarSplit(c, text, |text|, k) && MatchesHere(rest, text[k..]) {
      var m: nat :| m <= |text[k..]| && Denotes(rest, text[k..], m);
      assert StarSplit(c, text, k + m, k) && Denotes(rest, text[k..], k + m - k);
      assert Denotes(items, text, k + m);
    }
  }

  // ---- the matcher ----

  /** matchhere: does re match at the beginning of text? */
  method MatchHere(re: string, text: string) returns (r: bool)
    ensures r <==> MatchesHere(Items(re), text)
    decreases |re|, 0
  {
    if re == [] {
      EmptyHere(text);
      return true;
    }
    if |re| > 1 && re[1] == '*' {
      StarHere(re[0], Items(re[2..]), text);
      r := MatchStar(re[0], re[2..], text);
      return;
    }
    if re[0] == '$' && |re| == 1 {
      assert re == "$";
      EndHere(text);
      return text == [];
    }
    assert Items(re) == [One(re[0])] + Items(re[1..]);
    OneHere(re[0], Items(re[1..]), text);
    if text != [] && (re[0] == '.' || re[0] == text[0]) {
      r := MatchHere(re[1..], text[1..]);
      return;
    }
    return false;
  }

  /** matchstar: does c*re match at the beginning of text? */
  method MatchStar(c: char, re: string, text: string) returns (r: bool)
    ensures r <==> exists k: nat :: StarSplit(c, text, |text|, k) && MatchesHere(Items(re), text[k..])
    decreases |re|, 1
  {
    var t := 0;
    while true
      invariant t <= |text| && forall i | 0 <= i < t :: Accepts(c, text[i])
      invariant forall k: nat | k < t :: !MatchesHere(Items(re), text[k..])
      decreases |text| - t
    {
      var here := MatchHere(re, text[t..]);
      if here {
        assert StarSplit(c, text, |text|, t);
        return true;
      }
      if !(t < |text| && (text[t] == c || c == '.')) {
        return false;
      }
      t := t + 1;
    }
  }

  /** match: does the pattern match anywhere in text? */
  method Match(re: string, text: string) returns (r: bool)
    ensures r <==> Matches(re, text)
  {
    if re != [] && re[0] == '^' {
      r := MatchHere(re[1..], text);
      return;
    }
    var t := 0;
    while true
      invariant t <= |text|
      invariant forall i | 0 <= i < t :: !MatchesHere(Items(re), text[i..])
      decreases |text| - t
    {
      var here := MatchHere(re, text[t..]);
      if here {
        return true;
      }
      if t == |text| {
        return false;
      }
      t := t + 1;
    }
  }
}
