/**
 * The TileJSON 3.0.0 document `addMbtiles` derives from the archive metadata, the options
 * and the CID of the MFS directory, and the `{z}-{x}-{y}` URL template it advertises.
 */
module Descriptor {
  import opened Wrappers
  import opened JsStrings
  import opened ZxyKeys
  import opened Metadata
  import opened MfsPaths

  datatype TileJson = TileJson(
    tilejson: string,
    name: Option<string>,
    description: string,
    version: string,
    attribution: string,
    scheme: string,
    tiles: seq<string>,
    minzoom: Option<int>,
    maxzoom: Option<int>,
    bounds: Option<seq<real>>,
    center: Option<seq<real>>,
    vectorLayers: seq<VectorLayer>)

  /** `opts.domain || `${opts.gateway}/ipfs/${cid}``: a fixed domain, or the directory on a gateway. */
  function TilePrefix(opts: Opts, cid: string): string {
    if Truthy(opts.domain) then opts.domain.value else Render(opts.gateway) + "/ipfs/" + cid
  }

  function TileTemplate(prefix: string, format: Option<string>): string {
    prefix + "/{z}-{x}-{y}." + Render(format)
  }

  /** `a || b || ''` */
  function OrEmpty(a: Option<string>, b: Option<string>): string {
    Or(Or(a, b), Some("")).value
  }

  /** The descriptor object literal. */
  function BuildTileJson(info: Info, opts: Opts, id: Option<string>, cid: string): (d: TileJson)
    ensures d.tilejson == "3.0.0" && d.scheme == "xyz"
    ensures d.name == FirstTruthy([opts.title, info.name, id])
    ensures Some(d.description) == FirstTruthy([opts.desc, info.description, Some("")])
    ensures Some(d.version) == FirstTruthy([opts.version, info.version, Some("")])
    ensures Some(d.attribution) == FirstTruthy([opts.attribution, info.attribution, Some("")])
    ensures Truthy(opts.domain) ==> d.tiles == [TileTemplate(opts.domain.value, info.format)]
    ensures !Truthy(opts.domain) ==> d.tiles == [TileTemplate(Render(opts.gateway) + "/ipfs/" + cid, info.format)]
    ensures d.minzoom == info.minzoom && d.maxzoom == info.maxzoom
    ensures d.bounds == info.bounds && d.center == info.center
    ensures info.vectorLayers.Some? ==> d.vectorLayers == info.vectorLayers.value
    ensures info.vectorLayers.None? ==> d.vectorLayers == []
  {
    OrChain3(opts.title, info.name, id);
    OrChain3(opts.desc, info.description, Some(""));
    OrChain3(opts.version, info.version, Some(""));
    OrChain3(opts.attribution, info.attribution, Some(""));
    TileJson(
      tilejson := "3.0.0",
      name := Or(Or(opts.title, info.name), id),
      description := OrEmpty(opts.desc, info.description),
      version := OrEmpty(opts.version, info.version),
      attribution := OrEmpty(opts.attribution, info.attribution),
      scheme := "xyz",
      tiles := [TileTemplate(TilePrefix(opts, cid), info.format)],
      minzoom := info.minzoom,
      maxzoom := info.maxzoom,
      bounds := info.bounds,
      center := info.center,
      vectorLayers := info.vectorLayers.GetOr([]))
  }

  /** A descriptor field is empty only when every source it falls back through is. */
  lemma TextFieldsFallBack(info: Info, opts: Opts, id: Option<string>, cid: string)
    ensures var d := BuildTileJson(info, opts, id, cid);
      && (d.description == "" <==> !Truthy(opts.desc) && !Truthy(info.description))
      && (d.version == "" <==> !Truthy(opts.version) && !Truthy(info.version))
      && (d.attribution == "" <==> !Truthy(opts.attribution) && !Truthy(info.attribution))
      && (Truthy(d.name) <==> Truthy(opts.title) || Truthy(info.name) || Truthy(id))
  {
    var d := BuildTileJson(info, opts, id, cid);
    FirstTruthyCases3(opts.desc, info.description, Some(""));
    FirstTruthyCases3(opts.version, info.version, Some(""));
    FirstTruthyCases3(opts.attribution, info.attribution, Some(""));
    FirstTruthyCases3(opts.title, info.name, id);
  }

  lemma FirstTruthyCases3(a: Option<string>, b: Option<string>, c: Option<string>)
    ensures Truthy(FirstTruthy([a, b, c])) <==> Truthy(a) || Truthy(b) || Truthy(c)
    ensures !Truthy(FirstTruthy([a, b, c])) ==> FirstTruthy([a, b, c]) == c
  {
    var vs := [a, b, c];
    assert vs[0] == a && vs[1] == b && vs[2] == c;
  }

  /** The substitution a TileJSON client performs on a template: `{z}`, `{x}` and `{y}`
      become the given texts; all other text is kept. */
  function Expand(template: string, z: string, x: string, y: string): string
    decreases |template|
  {
    if template == [] then []
    else if |template| >= 3 && template[0] == '{' && template[2] == '}'
            && (template[1] == 'z' || template[1] == 'x' || template[1] == 'y') then
      var v := if template[1] == 'z' then z else if template[1] == 'x' then x else y;
      v + Expand(template[3..], z, x, y)
    else [template[0]] + Expand(template[1..], z, x, y)
  }

  /** The URL a client requests for tile `t`: the coordinates in decimal. */
  function TileUrl(template: string, t: TileKey): string {
    Expand(template, Decimal(t.z), Decimal(t.x), Decimal(t.y))
  }

  lemma {:induction false} ExpandPlain(a: string, b: string, z: string, x: string, y: string)
    requires '{' !in a
    ensures Expand(a + b, z, x, y) == a + Expand(b, z, x, y)
    decreases |a|
  {
    if a != [] {
      assert (a + b)[0] == a[0] && (a + b)[1..] == a[1..] + b;
      ExpandPlain(a[1..], b, z, x, y);
    } else {
      assert a + b == b;
    }
  }

  lemma ExpandPlaceholder(p: string, rest: string, z: string, x: string, y: string)
    requires p == "{z}" || p == "{x}" || p == "{y}"
    ensures Expand(p + rest, z, x, y) == (if p == "{z}" then z else if p == "{x}" then x else y) + Expand(rest, z, x, y)
  {
    assert (p + rest)[0] == '{' && (p + rest)[1] == p[1] && (p + rest)[2] == '}';
    assert (p + rest)[3..] == rest;
  }

  lemma DashedAssoc(z: string, x: string, y: string, f: string)
    ensures z + ("-" + (x + ("-" + (y + ("." + f))))) == z + "-" + x + "-" + y + "." + f
  {
  }

  /** The part of the template after the prefix expands to the tile's file name. */
  lemma ExpandZxyTail(f: string, z: string, x: string, y: string)
    requires '{' !in f
    ensures Expand("{z}-{x}-{y}." + f, z, x, y) == z + "-" + x + "-" + y + "." + f
  {
    var r5 := "." + f;
    var r4 := "{y}" + r5;
    var r3 := "-" + r4;
    var r2 := "{x}" + r3;
    var r1 := "-" + r2;
    var r0 := "{z}" + r1;
    assert Expand(r4, z, x, y) == y + r5 by {
      ExpandPlain(r5, [], z, x, y);
      assert r5 + [] == r5;
      ExpandPlaceholder("{y}", r5, z, x, y);
    }
    assert Expand(r2, z, x, y) == x + ("-" + (y + r5)) by {
      ExpandPlain("-", r4, z, x, y);
      ExpandPlaceholder("{x}", r3, z, x, y);
    }
    assert Expand(r0, z, x, y) == z + ("-" + (x + ("-" + (y + r5)))) by {
      ExpandPlain("-", r2, z, x, y);
      ExpandPlaceholder("{z}", r1, z, x, y);
    }
    DashedAssoc(z, x, y, f);
    assert r0 == "{z}-{x}-{y}." + f;
  }

  /** Expanding the advertised template for a tile gives exactly the URL of the file the
      write loop stored for that tile: the prefix, then `z-x-y.{format}`. */
  lemma TemplateAddressesTileFile(prefix: string, format: Option<string>, t: TileKey)
    requires '{' !in prefix && '{' !in Render(format)
    ensures TileUrl(TileTemplate(prefix, format), t) == prefix + "/" + TileFileName(KeyText(t), format)
  {
    var f := Render(format);
    assert TileTemplate(prefix, format) == (prefix + "/") + ("{z}-{x}-{y}." + f);
    var z, x, y := Decimal(t.z), Decimal(t.x), Decimal(t.y);
    ExpandPlain(prefix + "/", "{z}-{x}-{y}." + f, z, x, y);
    ExpandZxyTail(f, z, x, y);
    ZxyFileName(t, format);
  }

  /** Without a fixed domain, the template of the built descriptor points each tile at the
      file the write loop stored it in, `/{z-x-y.format}` under the directory's CID on the gateway
      (the directory itself is `/tiles-{id}`, and TilePath is DirPath + "/" + TileFileName). */
  lemma DescriptorLocatesWrittenTiles(info: Info, opts: Opts, id: Option<string>, cid: string, t: TileKey)
    requires !Truthy(opts.domain)
    requires '{' !in Render(opts.gateway) && '{' !in cid && '{' !in Render(info.format)
    ensures var d := BuildTileJson(info, opts, id, cid);
            TileUrl(d.tiles[0], t)
            == Render(opts.gateway) + "/ipfs/" + cid + "/" + TileFileName(KeyText(t), info.format)
  {
    var prefix := Render(opts.gateway) + "/ipfs/" + cid;
    assert TileUrl(TileTemplate(prefix, info.format), t) == prefix + "/" + TileFileName(KeyText(t), info.format) by {
      assert prefix == Render(opts.gateway) + ("/ipfs/" + cid);
      TemplateAddressesTileFile(prefix, info.format, t);
    }
  }
}
