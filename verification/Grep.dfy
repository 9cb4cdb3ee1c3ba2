/** The regular-expression matcher of user/grep.c, proved against a declarative language of
    literals, `.`, `c*` and a final `$`. A C string is the sequence of its characters before
    the terminating NUL. */
module Grep {

  /** One character, any number of one character, or the end of the text. */
  datatype Item = One(c: char) | Many(c: char) | End

  /** The items of a regular expression, read from the left. */
  function Items(re: string): seq<Item> {
    if re == "" then []
    else if |re| > 1 && re[1] == '*' then [Many(re[0])] + Items(re[2..])
    else if re == "$" then [End]
    else [One(re[0])] + Items(re[1..])
  }

  predicate Fits(c: char, x: char) { c == '.' || c == x }

  predicate AllFit(c: char, w: string) { forall i :: 0 <= i < |w| ==> Fits(c, w[i]) }

  /** w is in the language of the items; `last` says whether the text ends with w. */
  ghost predicate Denotes(items: seq<Item>, w: string, last: bool) {
    if items == [] then w == ""
    else match items[0]
      case One(c) => w != "" && Fits(c, w[0]) && Denotes(items[1..], w[1..], last)
      case Many(c) => exists k :: 0 <= k <= |w| && AllFit(c, w[..k]) && Denotes(items[1..], w[k..], last)
      case End => w == "" && last && items == [End]
  }

  /** Some prefix of the text is in the language. */
  ghost predicate PrefixMatches(items: seq<Item>, text: string) {
    exists n :: 0 <= n <= |text| && Denotes(items, text[..n], n == |text|)
  }

  /** Some prefix of some suffix is, or of the whole text if the expression begins with `^`. */
  ghost predicate Matches(re: string, text: string) {
    if re != "" && re[0] == '^' then PrefixMatches(Items(re[1..]), text)
    else exists i :: 0 <= i <= |text| && PrefixMatches(Items(re), text[i..])
  }

  lemma NothingLeft(text: string)
    ensures PrefixMatches([], text)
  {
    assert Denotes([], text[..0], 0 == |text|);
  }

  lemma OneMore(c: char, rest: seq<Item>, text: string)
    ensures PrefixMatches([One(c)] + rest, text) <==> text != "" && Fits(c, text[0]) && PrefixMatches(rest, text[1..])
  {
    var items := [One(c)] + rest;
    assert items[1..] == rest;
    if PrefixMatches(items, text) {
      var n :| 0 <= n <= |text| && Denotes(items, text[..n], n == |text|);
      assert text[..n][1..] == text[1..][..n - 1];
      assert Denotes(rest, text[1..][..n - 1], n - 1 == |text[1..]|);
    }
    if text != "" && Fits(c, text[0]) && PrefixMatches(rest, text[1..]) {
      var n :| 0 <= n <= |text[1..]| && Denotes(rest, text[1..][..n], n == |text[1..]|);
      assert text[..n + 1][1..] == text[1..][..n];
      assert Denotes(items, text[..n + 1], n + 1 == |text|);
    }
  }

  lemma Repeats(c: char, rest: seq<Item>, text: string)
    ensures PrefixMatches([Many(c)] + rest, text) <==>
              exists k :: 0 <= k <= |text| && AllFit(c, text[..k]) && PrefixMatches(rest, text[k..])
  {
    var items := [Many(c)] + rest;
    assert items[1..] == rest;
    if PrefixMatches(items, text) {
      var n :| 0 <= n <= |text| && Denotes(items, text[..n], n == |text|);
      var k :| 0 <= k <= n && AllFit(c, text[..n][..k]) && Denotes(rest, text[..n][k..], n == |text|);
      assert text[..n][..k] == text[..k] && text[..n][k..] == text[k..][..n - k];
      assert Denotes(rest, text[k..][..n - k], n - k == |text[k..]|);
      assert PrefixMatches(rest, text[k..]);
    }
    if k :| 0 <= k <= |text| && AllFit(c, text[..k]) && PrefixMatches(rest, text[k..]) {
      var n :| 0 <= n <= |text[k..]| && Denotes(rest, text[k..][..n], n == |text[k..]|);
      assert text[..n + k][..k] == text[..k] && text[..n + k][k..] == text[k..][..n];
      assert Denotes(items, text[..n + k], n + k == |text|);
    }
  }

  lemma AtEnd(text: string)
    ensures PrefixMatches([End], text) <==> text == ""
  {
    if text == "" { assert Denotes([End], text[..0], 0 == |text|); }
  }

  method MatchHere(re: string, text: string) returns (r: bool)
    ensures r <==> PrefixMatches(Items(re), text)
    decreases |re|, 0
  {
    if re == "" {
      NothingLeft(text);
      return true;
    }
    if |re| > 1 && re[1] == '*' {
      r := MatchStar(re[0], re[2..], text);
      return;
    }
    if re[0] == '$' && |re| == 1 {
      AtEnd(text);
      assert re == "$";
      return text == "";
    }
    OneMore(re[0], Items(re[1..]), text);
    if text != "" && (re[0] == '.' || re[0] == text[0]) {
      r := MatchHere(re[1..], text[1..]);
      return;
    }
    return false;
  }

  method MatchStar(c: char, re: string, text: string) returns (r: bool)
    ensures r <==> PrefixMatches([Many(c)] + Items(re), text)
    decreases |re|, 1
  {
    Repeats(c, Items(re), text);
    var i := 0;
    while true
      invariant 0 <= i <= |text| && AllFit(c, text[..i])
      invariant forall k :: 0 <= k < i ==> !PrefixMatches(Items(re), text[k..])
      decreases |text| - i
    {
      var here := MatchHere(re, text[i..]);
      if here {
        return true;
      }
      if i < |text| && (text[i] == c || c == '.') {
        i := i + 1;
      } else {
        assert forall k :: i < k <= |text| ==> !AllFit(c, text[..k]) by {
          assert i < |text| ==> !Fits(c, text[i]);
          assert forall k :: i < k <= |text| ==> text[..k][i] == text[i];
        }
        return false;
      }
    }
  }

  method Match(re: string, text: string) returns (r: bool)
    ensures r <==> Matches(re, text)
  {
    if re != "" && re[0] == '^' {
      r := MatchHere(re[1..], text);
      return;
    }
    var i := 0;
    while true
      invariant 0 <= i <= |text|
      invariant forall k :: 0 <= k < i ==> !PrefixMatches(Items(re), text[k..])
      decreases |text| - i
    {
      var here := MatchHere(re, text[i..]);
      if here {
        return true;
      }
      if i == |text| {
        return false;
      }
      i := i + 1;
    }
  }
}
