/**
 * Tile keys as the archive's ZXY stream delivers them: packets of newline-separated
 * `z/x/y` lines, turned into keys by `split('\n').map(t => t.trim()).filter(t => !!t)`.
 */
module ZxyKeys {
  import opened JsStrings

  /** What a parsed key always is: non-empty, a single line, with no white-space margins. */
  predicate IsKeyText(k: string) {
    k != "" && '\n' !in k && IsTrimmed(k)
  }

  /** `.map(t => t.trim())` */
  function TrimAll(lines: seq<string>): seq<string> {
    seq(|lines|, k requires 0 <= k < |lines| => Trim(lines[k]))
  }

  /** Every trimmed line is trimmed, and holds no newline when the line did not. */
  lemma TrimAllShape(lines: seq<string>)
    ensures |TrimAll(lines)| == |lines|
    ensures forall k :: 0 <= k < |lines| ==> IsTrimmed(TrimAll(lines)[k])
    ensures forall k :: 0 <= k < |lines| && '\n' !in lines[k] ==> '\n' !in TrimAll(lines)[k]
  {
    forall k | 0 <= k < |lines| && '\n' !in lines[k] ensures '\n' !in TrimAll(lines)[k] {
      TrimKeepsLine(lines[k]);
    }
  }

  lemma TrimAllConcat(xs: seq<string>, ys: seq<string>)
    ensures TrimAll(xs + ys) == TrimAll(xs) + TrimAll(ys)
  {
    assert forall k :: 0 <= k < |xs| + |ys| ==> TrimAll(xs + ys)[k] == (TrimAll(xs) + TrimAll(ys))[k];
  }

  /** `.filter(t => !!t)` */
  function NonEmpty(xs: seq<string>): seq<string> {
    if xs == [] then []
    else (if xs[0] == "" then [] else [xs[0]]) + NonEmpty(xs[1..])
  }

  /** The filter keeps only non-empty texts taken from its input, and never adds any. */
  lemma {:induction false} NonEmptyShape(xs: seq<string>)
    ensures |NonEmpty(xs)| <= |xs|
    ensures forall k :: 0 <= k < |NonEmpty(xs)| ==> NonEmpty(xs)[k] != "" && NonEmpty(xs)[k] in xs
  {
    if xs != [] {
      NonEmptyShape(xs[1..]);
      var r := NonEmpty(xs);
      var rest := NonEmpty(xs[1..]);
      if xs[0] == "" {
        assert r == rest;
      } else {
        assert r == [xs[0]] + rest;
      }
    }
  }

  lemma {:induction false} NonEmptyConcat(xs: seq<string>, ys: seq<string>)
    ensures NonEmpty(xs + ys) == NonEmpty(xs) + NonEmpty(ys)
    decreases |xs|
  {
    if xs == [] {
      assert xs + ys == ys;
    } else {
      assert (xs + ys)[1..] == xs[1..] + ys;
      NonEmptyConcat(xs[1..], ys);
    }
  }

  lemma TrimKeepsLine(s: string)
    requires '\n' !in s
    ensures '\n' !in Trim(s)
  {
    if '\n' in Trim(s) {
      TrimChars(s, '\n');
    }
  }

  /** The keys of one packet of the ZXY stream. */
  function ParseKeys(packet: string): seq<string> {
    NonEmpty(TrimAll(SplitLines(packet)))
  }

  /** Every key is non-empty, a single line and trimmed; there are at most as many keys as lines. */
  lemma ParseKeysAreKeys(packet: string)
    ensures forall k :: 0 <= k < |ParseKeys(packet)| ==> IsKeyText(ParseKeys(packet)[k])
    ensures |ParseKeys(packet)| <= multiset(packet)['\n'] + 1
  {
    var lines := SplitLines(packet);
    SplitLinesCount(packet);
    TrimAllShape(lines);
    NonEmptyShape(TrimAll(lines));
    var trimmed := TrimAll(lines);
    forall k | 0 <= k < |ParseKeys(packet)| ensures IsKeyText(ParseKeys(packet)[k]) {
      var key := ParseKeys(packet)[k];
      var m :| 0 <= m < |trimmed| && trimmed[m] == key;
    }
  }

  /** A packet that is a single line yields that line, trimmed, unless it is blank. */
  lemma ParseKeysLine(line: string)
    requires '\n' !in line
    ensures ParseKeys(line) == if Trim(line) == "" then [] else [Trim(line)]
  {
    SplitLine(line);
    var t := Trim(line);
    assert TrimAll([line]) == [t];
    assert [t][1..] == [];
    assert NonEmpty([t]) == (if t == "" then [] else [t]) + NonEmpty([]);
  }

  /** Parsing commutes with joining at a newline: keys come out in line order. */
  lemma ParseKeysConcat(a: string, b: string)
    ensures ParseKeys(a + "\n" + b) == ParseKeys(a) + ParseKeys(b)
  {
    SplitConcat(a, b);
    var la, lb := SplitLines(a), SplitLines(b);
    TrimAllConcat(la, lb);
    NonEmptyConcat(TrimAll(la), TrimAll(lb));
  }

  /** The keys of a packet made of given lines are those lines, each trimmed, blank ones dropped,
      in their original order. */
  lemma ParseKeysOfLines(lines: seq<string>)
    requires |lines| > 0
    requires forall k :: 0 <= k < |lines| ==> '\n' !in lines[k]
    ensures ParseKeys(JoinLines(lines)) == NonEmpty(TrimAll(lines))
  {
    SplitJoin(lines);
  }

  lemma ParseKeysEmpty()
    ensures ParseKeys("") == []
  {
    ParseKeysLine("");
  }

  /** Round trip: keys written one per line parse back to themselves. */
  lemma ParseKeysRoundTrip(keys: seq<string>)
    requires forall k :: 0 <= k < |keys| ==> IsKeyText(keys[k])
    ensures ParseKeys(JoinLines(keys)) == keys
  {
    if keys == [] {
      ParseKeysEmpty();
    } else {
      ParseKeysOfLines(keys);
      assert TrimAll(keys) == keys by {
        forall k | 0 <= k < |keys| ensures TrimAll(keys)[k] == keys[k] {
          TrimTrimmed(keys[k]);
        }
      }
      NonEmptyOfKeys(keys);
    }
  }

  /** The same with the newline the stream puts after its last line. */
  lemma ParseKeysRoundTripTerminated(keys: seq<string>)
    requires forall k :: 0 <= k < |keys| ==> IsKeyText(keys[k])
    ensures ParseKeys(JoinLines(keys) + "\n") == keys
  {
    var text := JoinLines(keys);
    assert text + "\n" == text + "\n" + "";
    ParseKeysConcat(text, "");
    ParseKeysRoundTrip(keys);
    ParseKeysEmpty();
    assert keys + [] == keys;
  }

  lemma {:induction false} NonEmptyOfKeys(keys: seq<string>)
    requires forall k :: 0 <= k < |keys| ==> keys[k] != ""
    ensures NonEmpty(keys) == keys
    decreases |keys|
  {
    if keys != [] {
      NonEmptyOfKeys(keys[1..]);
    }
  }

  /** A tile coordinate as the archive addresses it. */
  datatype TileKey = TileKey(z: nat, x: nat, y: nat)

  function DigitChar(d: nat): char
    requires d < 10
  {
    "0123456789"[d]
  }

  predicate IsDigits(s: string) {
    s != [] && forall i :: 0 <= i < |s| ==> '0' <= s[i] <= '9'
  }

  /** The decimal text of `n`, as `String(n)` gives it. */
  function Decimal(n: nat): (r: string)
    ensures IsDigits(r)
  {
    if n < 10 then [DigitChar(n)] else Decimal(n / 10) + [DigitChar(n % 10)]
  }

  lemma {:induction false} DecimalInjective(m: nat, n: nat)
    requires Decimal(m) == Decimal(n)
    ensures m == n
  {
    if m >= 10 && n >= 10 {
      var dm, dn := Decimal(m), Decimal(n);
      assert dm[|dm| - 1] == DigitChar(m % 10) && dn[|dn| - 1] == DigitChar(n % 10);
      assert dm[..|dm| - 1] == Decimal(m / 10) && dn[..|dn| - 1] == Decimal(n / 10);
      DecimalInjective(m / 10, n / 10);
    }
  }

  /** The line the ZXY stream emits for a tile: `z/x/y`. It always parses as a key. */
  function KeyText(t: TileKey): (r: string)
    ensures IsKeyText(r)
  {
    var r := Decimal(t.z) + "/" + Decimal(t.x) + "/" + Decimal(t.y);
    assert r[0] == Decimal(t.z)[0];
    NotWhiteSpace(r[0]);
    NotWhiteSpace(r[|r| - 1]);
    r
  }
}
