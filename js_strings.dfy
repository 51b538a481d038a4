/**
 * The JavaScript string behaviour `addMbtiles` relies on: the `||` operator on
 * possibly-undefined strings, template-literal interpolation, `String.prototype.trim`,
 * `split('\n')`, and `replace(/\//g, '-')`.
 */
module JsStrings {
  import opened Wrappers

  /** JavaScript truthiness of a string-or-undefined: undefined and '' are falsy. */
  predicate Truthy(v: Option<string>) {
    v.Some? && v.value != ""
  }

  /** `a || b` */
  function Or(a: Option<string>, b: Option<string>): Option<string> {
    if Truthy(a) then a else b
  }

  /** `${v}` inside a template literal: undefined becomes the text "undefined". */
  function Render(v: Option<string>): string {
    match v
    case None => "undefined"
    case Some(s) => s
  }

  /** A reference definition of a chain `v0 || v1 || ... || vn`: the first truthy value,
      or the last value when none is truthy. */
  function FirstTruthy(vs: seq<Option<string>>): (r: Option<string>)
    requires |vs| > 0
    ensures r in vs
    ensures Truthy(r) <==> exists k :: 0 <= k < |vs| && Truthy(vs[k])
    ensures Truthy(r) ==> exists k :: 0 <= k < |vs| && vs[k] == r && forall j :: 0 <= j < k ==> !Truthy(vs[j])
    ensures !Truthy(r) ==> r == vs[|vs| - 1]
  {
    if |vs| == 1 || Truthy(vs[0]) then vs[0]
    else
      var r := FirstTruthy(vs[1..]);
      assert forall k :: 1 <= k < |vs| ==> vs[k] == vs[1..][k - 1];
      r
  }

  lemma {:induction false} OrChain3(a: Option<string>, b: Option<string>, c: Option<string>)
    ensures Or(Or(a, b), c) == FirstTruthy([a, b, c])
  {
    assert [a, b, c][1..] == [b, c];
    assert [b, c][1..] == [c];
  }

  /** The characters `String.prototype.trim` removes: WhiteSpace and LineTerminator
      of section 12.2 and 12.3 of ECMA-262. */
  const WhiteSpaceChars: string :=
    "\t\n\U{000B}\U{000C}\r \U{00A0}\U{1680}"
    + "\U{2000}\U{2001}\U{2002}\U{2003}\U{2004}\U{2005}\U{2006}\U{2007}\U{2008}\U{2009}\U{200A}"
    + "\U{2028}\U{2029}\U{202F}\U{205F}\U{3000}\U{FEFF}"

  predicate IsWhiteSpace(c: char) {
    Among(c, WhiteSpaceChars)
  }

  /** Membership written as a recursion, so that the solver unfolds it one character at a time. */
  predicate Among(c: char, cs: string)
    decreases |cs|
  {
    cs != [] && (cs[0] == c || Among(c, cs[1..]))
  }

  lemma {:induction false} AmongIsIn(c: char, cs: string)
    ensures Among(c, cs) <==> c in cs
    decreases |cs|
  {
    if cs != [] {
      AmongIsIn(c, cs[1..]);
      assert cs == [cs[0]] + cs[1..];
    }
  }

  /** Digits are not white space. */
  lemma NotWhiteSpace(c: char)
    requires '0' <= c <= '9'
    ensures !IsWhiteSpace(c)
  {
    AmongIsIn(c, WhiteSpaceChars);
  }

  predicate AllWhiteSpace(s: string) {
    forall i :: 0 <= i < |s| ==> IsWhiteSpace(s[i])
  }

  /** Neither begins nor ends with white space: what `trim` leaves behind. */
  predicate IsTrimmed(s: string) {
    s == [] || (!IsWhiteSpace(s[0]) && !IsWhiteSpace(s[|s| - 1]))
  }

  function TrimStart(s: string): string
    decreases |s|
  {
    if |s| > 0 && IsWhiteSpace(s[0]) then TrimStart(s[1..]) else s
  }

  function TrimEnd(s: string): string
    decreases |s|
  {
    if |s| > 0 && IsWhiteSpace(s[|s| - 1]) then TrimEnd(s[..|s| - 1]) else s
  }

  /** `trimStart` drops a white-space prefix, and stops at the first other character. */
  lemma {:induction false} TrimStartShape(s: string)
    ensures var r := TrimStart(s);
            && |r| <= |s| && r == s[|s| - |r|..]
            && AllWhiteSpace(s[..|s| - |r|])
            && (r == [] || !IsWhiteSpace(r[0]))
    decreases |s|
  {
    if |s| > 0 && IsWhiteSpace(s[0]) {
      TrimStartShape(s[1..]);
      var r := TrimStart(s[1..]);
      assert s[..|s| - |r|] == [s[0]] + s[1..][..|s| - 1 - |r|];
    }
  }

  /** `trimEnd` drops a white-space suffix, and stops at the last other character. */
  lemma {:induction false} TrimEndShape(s: string)
    ensures var r := TrimEnd(s);
            && |r| <= |s| && r == s[..|r|]
            && AllWhiteSpace(s[|r|..])
            && (r == [] || !IsWhiteSpace(r[|r| - 1]))
    decreases |s|
  {
    if |s| > 0 && IsWhiteSpace(s[|s| - 1]) {
      TrimEndShape(s[..|s| - 1]);
      var r := TrimEnd(s[..|s| - 1]);
      assert s[|r|..] == s[..|s| - 1][|r|..] + [s[|s| - 1]];
    }
  }

  /** `s.trim()` */
  function Trim(s: string): (r: string)
    ensures IsTrimmed(r)
    ensures |r| <= |s|
  {
    var t := TrimStart(s);
    TrimStartShape(s);
    TrimEndShape(t);
    var r := TrimEnd(t);
    assert IsTrimmed(r) by {
      if r != [] { assert r[0] == t[0]; }
    }
    r
  }

  /** The result of `trim` is the infix of `s` left after removing white-space margins. */
  lemma TrimIsInfix(s: string) returns (i: nat)
    ensures i <= |s| - |Trim(s)| && Trim(s) == s[i..i + |Trim(s)|]
    ensures AllWhiteSpace(s[..i]) && AllWhiteSpace(s[i + |Trim(s)|..])
  {
    var t := TrimStart(s);
    var r := TrimEnd(t);
    TrimStartShape(s);
    TrimEndShape(t);
    i := |s| - |t|;
    assert r == s[i..i + |r|];
    assert s[i + |r|..] == t[|r|..];
  }

  /** Every character of `Trim(s)` comes from `s`. */
  lemma TrimChars(s: string, c: char)
    requires c in Trim(s)
    ensures c in s
  {
    var r := Trim(s);
    var i := TrimIsInfix(s);
    var k :| 0 <= k < |r| && r[k] == c;
    assert s[i + k] == c;
  }

  lemma {:induction false} TrimStartOfWhiteSpace(a: string, b: string)
    requires AllWhiteSpace(a)
    requires b == [] || !IsWhiteSpace(b[0])
    ensures TrimStart(a + b) == b
    decreases |a|
  {
    if a == [] {
      assert a + b == b;
    } else {
      assert (a + b)[1..] == a[1..] + b;
      TrimStartOfWhiteSpace(a[1..], b);
    }
  }

  lemma {:induction false} TrimEndOfWhiteSpace(a: string, b: string)
    requires AllWhiteSpace(b)
    requires a == [] || !IsWhiteSpace(a[|a| - 1])
    ensures TrimEnd(a + b) == a
    decreases |b|
  {
    if b == [] {
      assert a + b == a;
    } else {
      assert (a + b)[..|a + b| - 1] == a + b[..|b| - 1];
      TrimEndOfWhiteSpace(a, b[..|b| - 1]);
    }
  }

  /** The converse of Trim's contract: any text with white-space margins around a trimmed
      core trims to exactly that core, so the contract characterises `trim` completely. */
  lemma {:induction false} TrimOfMargins(a: string, m: string, b: string)
    requires AllWhiteSpace(a) && AllWhiteSpace(b) && IsTrimmed(m)
    ensures Trim(a + m + b) == m
  {
    if m == [] {
      assert a + m + b == a + b;
      assert AllWhiteSpace(a + b);
      TrimStartOfWhiteSpace(a + b, []);
      assert a + b + [] == a + b;
      TrimEndOfWhiteSpace([], []);
    } else {
      assert a + m + b == a + (m + b);
      TrimStartOfWhiteSpace(a, m + b);
      TrimEndOfWhiteSpace(m, b);
    }
  }

  /** Trimming text that is already trimmed changes nothing. */
  lemma TrimTrimmed(s: string)
    requires IsTrimmed(s)
    ensures Trim(s) == s
  {
    assert [] + s + [] == s;
    TrimOfMargins([], s, []);
  }

  /** `s.split('\n')`: always at least one piece, none holding a newline. */
  function SplitLines(s: string): (r: seq<string>)
    ensures |r| > 0
    ensures forall k :: 0 <= k < |r| ==> '\n' !in r[k]
    decreases |s|
  {
    if s == [] then [""]
    else
      var rest := SplitLines(s[1..]);
      if s[0] == '\n' then [""] + rest
      else [[s[0]] + rest[0]] + rest[1..]
  }

  /** One more piece than there are newlines. */
  lemma {:induction false} SplitLinesCount(s: string)
    ensures |SplitLines(s)| == multiset(s)['\n'] + 1
    decreases |s|
  {
    if s != [] {
      SplitLinesCount(s[1..]);
      assert s == [s[0]] + s[1..];
      assert multiset(s) == multiset{s[0]} + multiset(s[1..]);
    }
  }

  /** `parts.join('\n')`, the inverse of SplitLines. */
  function JoinLines(parts: seq<string>): string
  {
    if parts == [] then ""
    else if |parts| == 1 then parts[0]
    else parts[0] + "\n" + JoinLines(parts[1..])
  }

  lemma JoinLinesCons(c: char, first: string, rest: seq<string>)
    ensures JoinLines([[c] + first] + rest) == [c] + JoinLines([first] + rest)
  {
    if rest == [] {
      assert [[c] + first] + rest == [[c] + first];
      assert [first] + rest == [first];
    } else {
      assert ([[c] + first] + rest)[1..] == rest;
      assert ([first] + rest)[1..] == rest;
      var tail := JoinLines(rest);
      assert ([c] + first) + "\n" + tail == [c] + (first + "\n" + tail);
    }
  }


  lemma {:induction false} JoinSplit(s: string)
    ensures JoinLines(SplitLines(s)) == s
    decreases |s|
  {
    if s != [] {
      var rest := SplitLines(s[1..]);
      JoinSplit(s[1..]);
      if s[0] == '\n' {
        assert ([""] + rest)[1..] == rest;
      } else {
        assert rest == [rest[0]] + rest[1..];
        JoinLinesCons(s[0], rest[0], rest[1..]);
      }
      assert s == [s[0]] + s[1..];
    }
  }

  /** Splitting a text at a newline splits its pieces there too. */
  lemma {:induction false} SplitConcat(a: string, b: string)
    ensures SplitLines(a + "\n" + b) == SplitLines(a) + SplitLines(b)
    decreases |a|
  {
    if a == [] {
      assert a + "\n" + b == "\n" + b;
      assert ("\n" + b)[1..] == b;
    } else {
      assert (a + "\n" + b)[1..] == a[1..] + "\n" + b;
      SplitConcat(a[1..], b);
    }
  }

  lemma {:induction false} SplitLine(s: string)
    requires '\n' !in s
    ensures SplitLines(s) == [s]
    decreases |s|
  {
    if s != [] {
      SplitLine(s[1..]);
      assert s == [s[0]] + s[1..];
    }
  }

  lemma {:induction false} SplitJoin(parts: seq<string>)
    requires |parts| > 0
    requires forall k :: 0 <= k < |parts| ==> '\n' !in parts[k]
    ensures SplitLines(JoinLines(parts)) == parts
    decreases |parts|
  {
    if |parts| == 1 {
      SplitLine(parts[0]);
    } else {
      SplitConcat(parts[0], JoinLines(parts[1..]));
      SplitLine(parts[0]);
      SplitJoin(parts[1..]);
      assert parts == [parts[0]] + parts[1..];
    }
  }

  /** `s.replace(/\//g, '-')`: the same text with every slash turned into a dash. */
  function ReplaceSlashes(s: string): (r: string)
    ensures |r| == |s|
    ensures forall i :: 0 <= i < |s| ==> r[i] == if s[i] == '/' then '-' else s[i]
    ensures '/' !in r
  {
    seq(|s|, i requires 0 <= i < |s| => if s[i] == '/' then '-' else s[i])
  }
}
