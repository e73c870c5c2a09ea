/** The Ruby and ActiveSupport string behaviour the models rely on:
    `nil`, `blank?`/`present?`, interpolation, `gsub` of one character,
    `join`, `split`, `strip`, and the line anchors `^` and `$` of Ruby
    regular expressions.  Whitespace follows the definitions of Ruby 1.9. */
module RubyText {

  datatype Option<T> = None | Some(value: T)

  /** `\s` in a Ruby regular expression: space, tab, line feed, carriage return, form feed. */
  predicate IsRegexSpace(c: char) {
    c == ' ' || c == '\t' || c == '\n' || c == '\r' || c == '\U{000C}'
  }

  /** What `String#strip` removes on the left: C's isspace, which adds the vertical tab. */
  predicate IsStripSpace(c: char) {
    IsRegexSpace(c) || c == '\U{000B}'
  }

  /** What `String#strip` removes on the right in Ruby 1.9: isspace and NUL, mixed in any order. */
  predicate IsTrailingStrip(c: char) {
    IsStripSpace(c) || c == '\0'
  }

  /** ActiveSupport's `blank?` (`self !~ /\S/` for strings): nil, or only `\s` characters. */
  predicate Blank(s: Option<string>) {
    s.None? || forall i :: 0 <= i < |s.value| ==> IsRegexSpace(s.value[i])
  }

  predicate Present(s: Option<string>) {
    !Blank(s)
  }

  /** `"#{s}"` and `Array#join` turn nil into the empty string. */
  function Text(s: Option<string>): string {
    if s.Some? then s.value else ""
  }

  predicate StartsWith(s: string, p: string) {
    |p| <= |s| && s[..|p|] == p
  }

  predicate EndsWith(s: string, p: string) {
    |p| <= |s| && s[|s| - |p|..] == p
  }

  /** `s.sub(/^p/, q)` on a string without line breaks: rewrite a leading `p` to `q`. */
  function ReplacePrefix(s: string, p: string, q: string): (r: string)
    ensures StartsWith(s, p) ==> StartsWith(r, q) && r[|q|..] == s[|p|..]
    ensures !StartsWith(s, p) ==> r == s
  {
    if StartsWith(s, p) then q + s[|p|..] else s
  }

  /** Rewriting a leading `p` to `q` and then the leading `q` back to `p` restores the string. */
  lemma ReplacePrefixRoundTrip(s: string, p: string, q: string)
    requires StartsWith(s, p)
    ensures ReplacePrefix(ReplacePrefix(s, p, q), q, p) == s
  {
    var t := ReplacePrefix(s, p, q);
    assert t[..|q|] == q;
    assert p + t[|q|..] == s[..|p|] + s[|p|..];
  }

  /** `s.gsub(/x/, "y")` for single characters `x` and `y`. */
  function ReplaceChar(s: string, from: char, to: char): (r: string)
    ensures |r| == |s|
    ensures forall i :: 0 <= i < |s| ==> r[i] == (if s[i] == from then to else s[i])
  {
    if s == [] then [] else [if s[0] == from then to else s[0]] + ReplaceChar(s[1..], from, to)
  }

  /** Replacing `a` by `b` and then `b` by `a` restores a string that had no `b`. */
  lemma ReplaceCharRoundTrip(s: string, a: char, b: char)
    requires b !in s
    ensures ReplaceChar(ReplaceChar(s, a, b), b, a) == s
  {
    var t := ReplaceChar(ReplaceChar(s, a, b), b, a);
    forall i | 0 <= i < |s| ensures t[i] == s[i] {
      assert s[i] != b;
    }
  }

  /** `xs.join(sep)`. */
  function Join(xs: seq<string>, sep: string): (r: string)
    ensures |xs| == 0 ==> r == ""
    ensures |xs| == 1 ==> r == xs[0]
    ensures |xs| > 0 ==> StartsWith(r, xs[0]) && EndsWith(r, xs[|xs| - 1])
  {
    if |xs| == 0 then ""
    else if |xs| == 1 then xs[0]
    else xs[0] + sep + Join(xs[1..], sep)
  }

  lemma Reassociate(x: string, sep: string, ja: string, jb: string)
    ensures x + sep + (ja + sep + jb) == (x + sep + ja) + sep + jb
  {
  }

  /** Joining two non-empty lists of items is joining each and putting `sep` between. */
  lemma {:induction false} JoinAppend(a: seq<string>, b: seq<string>, sep: string)
    requires |a| >= 1 && |b| >= 1
    ensures Join(a + b, sep) == Join(a, sep) + sep + Join(b, sep)
  {
    var x := a[0];
    assert a + b == [x] + (a[1..] + b);
    JoinCons(x, a[1..] + b, sep);
    if |a| > 1 {
      JoinAppend(a[1..], b, sep);
      JoinCons(x, a[1..], sep);
      assert a == [x] + a[1..];
      Reassociate(x, sep, Join(a[1..], sep), Join(b, sep));
    } else {
      assert a[1..] + b == b;
    }
  }

  /** Cutting `s` at every `c`, keeping empty pieces (the first step of `String#split`). */
  function SplitAll(s: string, c: char): (r: seq<string>)
    ensures |r| >= 1
  {
    if s == [] then [""]
    else
      var rest := SplitAll(s[1..], c);
      if s[0] == c then [""] + rest else [[s[0]] + rest[0]] + rest[1..]
  }

  /** No piece holds the cut character. */
  lemma {:induction false} SplitAllPieces(s: string, c: char)
    ensures forall k :: 0 <= k < |SplitAll(s, c)| ==> c !in SplitAll(s, c)[k]
  {
    if s != [] {
      SplitAllPieces(s[1..], c);
    }
  }

  /** How the pieces of a string relate to those of its tail. */
  lemma SplitAllCons(x: char, s: string, c: char)
    ensures var rest := SplitAll(s, c);
      SplitAll([x] + s, c) == if x == c then [""] + rest else [[x] + rest[0]] + rest[1..]
  {
    assert ([x] + s)[1..] == s;
  }

  /** Joining pieces after a first one. */
  lemma JoinCons(x: string, xs: seq<string>, sep: string)
    requires |xs| >= 1
    ensures Join([x] + xs, sep) == x + sep + Join(xs, sep)
  {
    assert ([x] + xs)[1..] == xs;
  }

  /** Extending the first piece by one character extends the join by that character. */
  lemma JoinExtendFirst(x: char, rest: seq<string>, sep: string)
    requires |rest| >= 1
    ensures Join([[x] + rest[0]] + rest[1..], sep) == [x] + Join(rest, sep)
  {
    if |rest| > 1 {
      JoinCons([x] + rest[0], rest[1..], sep);
      JoinCons(rest[0], rest[1..], sep);
      assert rest == [rest[0]] + rest[1..];
      var j := Join(rest[1..], sep);
      assert ([x] + rest[0]) + sep + j == [x] + (rest[0] + sep + j);
    }
  }

  /** Joining the pieces with the cut character gives back the string. */
  lemma {:induction false} SplitAllJoin(s: string, c: char)
    ensures Join(SplitAll(s, c), [c]) == s
  {
    if s != [] {
      var rest := SplitAll(s[1..], c);
      SplitAllJoin(s[1..], c);
      SplitAllCons(s[0], s[1..], c);
      assert s == [s[0]] + s[1..];
      if s[0] == c {
        JoinCons("", rest, [c]);
      } else {
        JoinExtendFirst(s[0], rest, [c]);
      }
    }
  }

  /** The last piece is empty only when the string is empty or ends with the cut character. */
  lemma {:induction false} SplitAllLastPiece(s: string, c: char)
    ensures var r := SplitAll(s, c); r[|r| - 1] == [] ==> s == [] || s[|s| - 1] == c
  {
    if s != [] {
      var rest := SplitAll(s[1..], c);
      SplitAllLastPiece(s[1..], c);
      SplitAllCons(s[0], s[1..], c);
      assert s == [s[0]] + s[1..];
    }
  }

  /** A string with no `c` is one piece. */
  lemma {:induction false} SplitAllWithout(s: string, c: char)
    requires c !in s
    ensures SplitAll(s, c) == [s]
  {
    if s != [] {
      SplitAllWithout(s[1..], c);
      assert s[0] != c;
      assert SplitAll(s, c) == [[s[0]] + s[1..]];
      assert [s[0]] + s[1..] == s;
    }
  }

  /** Cutting `a + [c] + b` at `c` gives the pieces of `a` followed by those of `b`. */
  lemma {:induction false} SplitAllConcat(a: string, b: string, c: char)
    ensures SplitAll(a + [c] + b, c) == SplitAll(a, c) + SplitAll(b, c)
  {
    var rb := SplitAll(b, c);
    if a == [] {
      assert a + [c] + b == [c] + b;
      SplitAllCons(c, b, c);
      assert SplitAll(a, c) == [""];
    } else {
      var x, tail := a[0], a[1..];
      var t := tail + [c] + b;
      assert a + [c] + b == [x] + t;
      assert a == [x] + tail;
      SplitAllConcat(tail, b, c);
      var ra := SplitAll(tail, c);
      assert SplitAll(t, c) == ra + rb;
      SplitAllCons(x, t, c);
      SplitAllCons(x, tail, c);
      ConsPieces(x, ra, rb);
    }
  }

  /** Prefixing `x` to the first piece commutes with appending more pieces. */
  lemma ConsPieces(x: char, ra: seq<string>, rb: seq<string>)
    requires |ra| >= 1
    ensures [""] + (ra + rb) == ([""] + ra) + rb
    ensures [[x] + (ra + rb)[0]] + (ra + rb)[1..] == ([[x] + ra[0]] + ra[1..]) + rb
  {
    assert (ra + rb)[1..] == ra[1..] + rb;
  }

  /** Ruby's `split` drops the empty pieces at the end. */
  function DropTrailingEmpty(xs: seq<string>): (r: seq<string>)
    ensures |r| <= |xs| && r == xs[..|r|]
    ensures r != [] ==> r[|r| - 1] != []
    ensures forall k :: |r| <= k < |xs| ==> xs[k] == []
  {
    if xs != [] && xs[|xs| - 1] == [] then DropTrailingEmpty(xs[..|xs| - 1]) else xs
  }

  /** `s.split(c)` for a one-character string pattern. */
  function Split(s: string, c: char): (r: seq<string>)
    ensures forall k :: 0 <= k < |r| ==> c !in r[k]
    ensures r != [] ==> r[|r| - 1] != []
  {
    SplitAllPieces(s, c);
    DropTrailingEmpty(SplitAll(s, c))
  }

  /** Joining the pieces of `split` with the separator gives back any string that does not end in it. */
  lemma SplitJoinRoundTrip(s: string, c: char)
    requires s != [] && s[|s| - 1] != c
    ensures Join(Split(s, c), [c]) == s
  {
    var pieces := SplitAll(s, c);
    SplitAllJoin(s, c);
    SplitAllLastPiece(s, c);
    assert DropTrailingEmpty(pieces) == pieces;
  }

  /** The empty string splits into no pieces. */
  lemma SplitEmpty(c: char)
    ensures Split("", c) == []
  {
    assert SplitAll("", c) == [""];
    assert DropTrailingEmpty([""]) == DropTrailingEmpty([]);
  }

  /** The lines that Ruby's `^` and `$` anchor to: the pieces between line feeds. */
  function Lines(s: string): (r: seq<string>)
    ensures |r| >= 1
    ensures forall k :: 0 <= k < |r| ==> '\n' !in r[k]
  {
    SplitAllPieces(s, '\n');
    SplitAll(s, '\n')
  }

  /** A pattern anchored with `^` (and possibly `$`) matches when some line satisfies it. */
  predicate AnyLine(s: string, p: string -> bool) {
    var ls := Lines(s);
    exists k :: 0 <= k < |ls| && p(ls[k])
  }

  /** On a string without line feeds the line anchors are the string's own ends. */
  lemma SingleLine(s: string, p: string -> bool)
    requires '\n' !in s
    ensures Lines(s) == [s]
    ensures AnyLine(s, p) == p(s)
  {
    SplitAllWithout(s, '\n');
    assert Lines(s)[0] == s;
  }

  /** `gsub(/^p/, "")`: drop a leading `p` from every line. */
  function DropPrefixEveryLine(s: string, p: string): string {
    var ls := Lines(s);
    Join(seq(|ls|, k requires 0 <= k < |ls| => ReplacePrefix(ls[k], p, "")), "\n")
  }

  /** On one line, `gsub(/^p/, "")` removes a single leading `p`. */
  lemma DropPrefixSingleLine(s: string, p: string)
    requires '\n' !in s
    ensures DropPrefixEveryLine(s, p) == ReplacePrefix(s, p, "")
  {
    SplitAllWithout(s, '\n');
  }

  /** Ruby does not fold characters outside ASCII in these patterns; ASCII letters fold to lower case. */
  function Lower(c: char): char {
    if 'A' <= c <= 'Z' then (c as int - 'A' as int + 'a' as int) as char else c
  }

  /** `/^p/i` on one line, for a lower-case pattern `p`. */
  predicate StartsWithIgnoringCase(s: string, p: string) {
    |p| <= |s| && forall i :: 0 <= i < |p| ==> Lower(s[i]) == p[i]
  }

  predicate IsDigit(c: char) {
    '0' <= c <= '9'
  }

  predicate IsLowerLetter(c: char) {
    'a' <= c <= 'z'
  }

  /** `String#lstrip`. */
  function LStrip(s: string): (r: string)
    ensures |r| <= |s| && r == s[|s| - |r|..]
    ensures forall i :: 0 <= i < |s| - |r| ==> IsStripSpace(s[i])
    ensures r != [] ==> !IsStripSpace(r[0])
  {
    if s == [] then []
    else if IsStripSpace(s[0]) then LStrip(s[1..])
    else s
  }

  /** `String#rstrip`, which also removes trailing NUL characters. */
  function RStrip(s: string): (r: string)
    ensures |r| <= |s| && r == s[..|r|]
    ensures forall i :: |r| <= i < |s| ==> IsTrailingStrip(s[i])
    ensures r != [] ==> !IsTrailingStrip(r[|r| - 1])
  {
    if s == [] then []
    else if IsTrailingStrip(s[|s| - 1]) then RStrip(s[..|s| - 1])
    else s
  }

  /** `String#strip`: left part first, then the right part of what remains. */
  function Strip(s: string): (r: string)
    ensures r != [] ==> !IsStripSpace(r[0]) && !IsTrailingStrip(r[|r| - 1])
  {
    RStrip(LStrip(s))
  }

  /** `strip` leaves nothing exactly when every character is whitespace or NUL. */
  lemma StripEmpty(s: string)
    ensures Strip(s) == [] <==> forall i :: 0 <= i < |s| ==> IsTrailingStrip(s[i])
  {
    var l := LStrip(s);
    if RStrip(l) == [] {
      forall i | 0 <= i < |s| ensures IsTrailingStrip(s[i]) {
        if i >= |s| - |l| {
          assert s[i] == l[i - (|s| - |l|)];
        }
      }
    }
  }

  /** Stripping never cuts into a tail that starts with a non-whitespace character and ends with a
      character `rstrip` keeps (neither whitespace nor NUL). */
  lemma StripKeepsTail(s: string, tail: string)
    requires EndsWith(s, tail) && tail != []
    requires !IsStripSpace(tail[0]) && !IsTrailingStrip(tail[|tail| - 1])
    ensures EndsWith(Strip(s), tail)
  {
    var l := LStrip(s);
    var p := |s| - |tail|;
    var d := |s| - |l|;
    assert s[p..] == tail;
    assert s[p] == tail[0];
    assert !IsStripSpace(s[p]);
    assert d <= p;
    assert l == s[d..];
    assert l[|l| - |tail|..] == s[p..];
    assert l[|l| - 1] == tail[|tail| - 1];
    assert RStrip(l) == l;
    assert Strip(s) == l;
    assert EndsWith(l, tail);
  }
}
