/**
 * Where `addMbtiles` puts things: the MFS directory `/tiles-{id}`, its `info.json`,
 * one flat file `z-x-y.{format}` per tile, and the descriptor under `public/static/tilejson`.
 */
module MfsPaths {
  import opened Wrappers
  import opened JsStrings
  import opened ZxyKeys

  function DirPath(id: Option<string>): string {
    "/tiles-" + Render(id)
  }

  function InfoPath(id: Option<string>): string {
    DirPath(id) + "/info.json"
  }

  /** The file name of a tile: its key with every slash made a dash, then `.{format}`. */
  function TileFileName(key: string, format: Option<string>): (name: string)
    ensures |name| == |key| + 1 + |Render(format)|
    ensures name[..|key|] == ReplaceSlashes(key)
    ensures name[|key|..] == "." + Render(format)
    ensures '/' !in name[..|key|]
    ensures '/' !in Render(format) ==> '/' !in name
  {
    var name := ReplaceSlashes(key) + "." + Render(format);
    assert name[..|key|] == ReplaceSlashes(key);
    name
  }

  /** The MFS path of a tile: a file directly inside the tileset directory. */
  function TilePath(id: Option<string>, key: string, format: Option<string>): (path: string)
    ensures |path| > |DirPath(id)| + 1
    ensures path[..|DirPath(id)| + 1] == DirPath(id) + "/"
    ensures path[|DirPath(id)| + 1..] == TileFileName(key, format)
    ensures '/' !in Render(format) ==> '/' !in path[|DirPath(id)| + 1..]
  {
    DirPath(id) + "/" + TileFileName(key, format)
  }

  /** Where the descriptor of the tileset is written. */
  function DescriptorPath(id: Option<string>): string {
    "public/static/tilejson/" + Render(id) + ".json"
  }

  lemma ReplaceSlashesConcat(a: string, b: string)
    ensures ReplaceSlashes(a + b) == ReplaceSlashes(a) + ReplaceSlashes(b)
  {
    assert forall i :: 0 <= i < |a + b| ==> ReplaceSlashes(a + b)[i] == (ReplaceSlashes(a) + ReplaceSlashes(b))[i];
  }

  /** Slashes between slash-free parts become dashes. */
  lemma ReplaceSlashesParts(a: string, b: string, c: string)
    requires '/' !in a && '/' !in b && '/' !in c
    ensures ReplaceSlashes(a + "/" + b + "/" + c) == a + "-" + b + "-" + c
  {
    ReplaceSlashesConcat(a + "/" + b + "/", c);
    ReplaceSlashesConcat(a + "/" + b, "/");
    ReplaceSlashesConcat(a + "/", b);
    ReplaceSlashesConcat(a, "/");
    ReplaceSlashesFree(a);
    ReplaceSlashesFree(b);
    ReplaceSlashesFree(c);
  }

  lemma ReplaceSlashesFree(s: string)
    requires '/' !in s
    ensures ReplaceSlashes(s) == s
  {
  }

  lemma DigitsNoSlash(s: string)
    requires IsDigits(s)
    ensures '/' !in s
  {
  }

  /** The file of tile (z, x, y) is `z-x-y.{format}`, matching the descriptor's `{z}-{x}-{y}` template. */
  lemma ZxyFileName(t: TileKey, format: Option<string>)
    ensures TileFileName(KeyText(t), format)
         == Decimal(t.z) + "-" + Decimal(t.x) + "-" + Decimal(t.y) + "." + Render(format)
  {
    var z, x, y := Decimal(t.z), Decimal(t.x), Decimal(t.y);
    DigitsNoSlash(z);
    DigitsNoSlash(x);
    DigitsNoSlash(y);
    assert KeyText(t) == z + "/" + x + "/" + y;
    ReplaceSlashesParts(z, x, y);
  }

  /** In `u + "-" + v` with no dash in `u`, the first dash is at `|u|`. */
  lemma FirstDash(u: string, v: string)
    requires '-' !in u
    ensures (u + "-" + v)[|u|] == '-'
    ensures forall k :: 0 <= k < |u| ==> (u + "-" + v)[k] != '-'
  {
    assert forall k :: 0 <= k < |u| ==> (u + "-" + v)[k] == u[k];
  }

  lemma SplitAtDash(a: string, b: string, c: string, d: string)
    requires '-' !in a && '-' !in c
    requires a + "-" + b == c + "-" + d
    ensures a == c && b == d
  {
    var s := a + "-" + b;
    FirstDash(a, b);
    FirstDash(c, d);
    assert |a| == |c|;
    assert a == s[..|a|] && c == s[..|c|];
    assert b == s[|a| + 1..] && d == s[|c| + 1..];
  }

  lemma DigitsNoDash(s: string)
    requires IsDigits(s)
    ensures '-' !in s
  {
  }

  /** `a-b-c` determines its parts when `a` and `b` hold no dash. */
  lemma DashedInjective(a1: string, b1: string, c1: string, a2: string, b2: string, c2: string)
    requires '-' !in a1 && '-' !in b1 && '-' !in a2 && '-' !in b2
    requires a1 + "-" + b1 + "-" + c1 == a2 + "-" + b2 + "-" + c2
    ensures a1 == a2 && b1 == b2 && c1 == c2
  {
    assert a1 + "-" + b1 + "-" + c1 == a1 + "-" + (b1 + "-" + c1);
    assert a2 + "-" + b2 + "-" + c2 == a2 + "-" + (b2 + "-" + c2);
    SplitAtDash(a1, b1 + "-" + c1, a2, b2 + "-" + c2);
    SplitAtDash(b1, c1, b2, c2);
  }

  /** The dashed text `z-x-y` determines the tile. */
  lemma DashedTextInjective(t1: TileKey, t2: TileKey)
    requires Decimal(t1.z) + "-" + Decimal(t1.x) + "-" + Decimal(t1.y)
          == Decimal(t2.z) + "-" + Decimal(t2.x) + "-" + Decimal(t2.y)
    ensures t1 == t2
  {
    DigitsNoDash(Decimal(t1.z));
    DigitsNoDash(Decimal(t2.z));
    DigitsNoDash(Decimal(t1.x));
    DigitsNoDash(Decimal(t2.x));
    DashedInjective(Decimal(t1.z), Decimal(t1.x), Decimal(t1.y), Decimal(t2.z), Decimal(t2.x), Decimal(t2.y));
    DecimalInjective(t1.z, t2.z);
    DecimalInjective(t1.x, t2.x);
    DecimalInjective(t1.y, t2.y);
  }

  /** Distinct tiles never share a file: the flat layout loses no tile. */
  lemma DistinctTilesDistinctPaths(id: Option<string>, format: Option<string>, t1: TileKey, t2: TileKey)
    requires TilePath(id, KeyText(t1), format) == TilePath(id, KeyText(t2), format)
    ensures t1 == t2
  {
    var n := |DirPath(id)| + 1;
    var f1, f2 := TileFileName(KeyText(t1), format), TileFileName(KeyText(t2), format);
    assert f1 == TilePath(id, KeyText(t1), format)[n..] == f2;
    ZxyFileName(t1, format);
    ZxyFileName(t2, format);
    var ext := "." + Render(format);
    var s1 := Decimal(t1.z) + "-" + Decimal(t1.x) + "-" + Decimal(t1.y);
    var s2 := Decimal(t2.z) + "-" + Decimal(t2.x) + "-" + Decimal(t2.y);
    assert s1 == f1[..|f1| - |ext|] && s2 == f2[..|f2| - |ext|];
    DashedTextInjective(t1, t2);
  }

  /** No tile of the stream lands on `info.json`. */
  lemma InfoIsNotATile(id: Option<string>, format: Option<string>, t: TileKey)
    ensures InfoPath(id) != TilePath(id, KeyText(t), format)
  {
    var n := |DirPath(id)| + 1;
    assert InfoPath(id) == DirPath(id) + "/" + "info.json";
    assert InfoPath(id)[n] == 'i';
    var name := TileFileName(KeyText(t), format);
    assert TilePath(id, KeyText(t), format)[n] == name[0];
    ZxyFileName(t, format);
    assert name[0] == Decimal(t.z)[0];
  }
}
