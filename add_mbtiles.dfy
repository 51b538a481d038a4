/**
 * `addMbtiles`: check the scheme, write `info.json` into `/tiles-{id}`, then walk the ZXY
 * stream packet by packet and key by key, fetching each tile, gunzipping it when its
 * `Content-Encoding` header is exactly `gzip`, and writing it to its flat file; finally
 * derive the TileJSON descriptor and its path.
 */
module AddMbtiles {
  import opened Wrappers
  import opened JsStrings
  import opened ZxyKeys
  import opened Metadata
  import opened MfsPaths
  import opened Mfs
  import opened Descriptor

  /** What `getTile` resolves with: the stored bytes and the headers the archive reports. */
  datatype Tile = Tile(data: Bytes, headers: map<string, string>)

  /** The archive as `addMbtiles` sees it. `infoJson` is the serialised metadata written to
      `info.json`; `packets` is the ZXY stream; `getTile` may reject, e.g. for a missing tile. */
  datatype Archive = Archive(
    info: Info,
    infoJson: Bytes,
    packets: seq<string>,
    getTile: string -> Result<Tile, string>)

  datatype Outcome =
    | SchemeRejected(message: string)
    | TileFailed(key: string, message: string)
    | Published(descriptorPath: string, descriptor: TileJson)

  /** The calls the run issues, in order, and how it ends. */
  datatype Run = Run(writes: seq<Write>, outcome: Outcome)

  predicate IsGzipped(tile: Tile) {
    "Content-Encoding" in tile.headers && tile.headers["Content-Encoding"] == "gzip"
  }

  /** The bytes written for a tile: decoded only when the header is exactly `gzip`,
      the stored bytes unchanged otherwise. */
  function TileContent(tile: Tile, gunzip: Bytes -> Result<Bytes, string>): (r: Result<Bytes, string>)
    ensures IsGzipped(tile) ==> r == gunzip(tile.data)
    ensures !IsGzipped(tile) ==> r == Success(tile.data)
  {
    if IsGzipped(tile) then gunzip(tile.data) else Success(tile.data)
  }

  /** Fetching a key and decoding it: the first error of the two steps, or the bytes to write. */
  function FetchTile(key: string, getTile: string -> Result<Tile, string>, gunzip: Bytes -> Result<Bytes, string>): Result<Bytes, string> {
    match getTile(key)
    case Failure(e) => Failure(e)
    case Success(tile) => TileContent(tile, gunzip)
  }

  /** Concatenation of the key lists, in order. */
  function Flatten(lists: seq<seq<string>>): seq<string>
    decreases |lists|
  {
    if lists == [] then [] else Flatten(lists[..|lists| - 1]) + lists[|lists| - 1]
  }

  lemma {:induction false} FlattenConcat(p: seq<seq<string>>, q: seq<seq<string>>)
    ensures Flatten(p + q) == Flatten(p) + Flatten(q)
    decreases |q|
  {
    if q == [] {
      assert p + q == p;
    } else {
      assert (p + q)[..|p + q| - 1] == p + q[..|q| - 1];
      FlattenConcat(p, q[..|q| - 1]);
    }
  }

  /** The keys of each packet. */
  function PacketKeys(packets: seq<string>): (lists: seq<seq<string>>)
    ensures |lists| == |packets|
  {
    seq(|packets|, i requires 0 <= i < |packets| => ParseKeys(packets[i]))
  }

  /** The keys of the whole stream: packet order, then line order within a packet. */
  function AllKeys(packets: seq<string>): seq<string> {
    Flatten(PacketKeys(packets))
  }

  lemma PacketKeysConcat(p: seq<string>, q: seq<string>)
    ensures PacketKeys(p + q) == PacketKeys(p) + PacketKeys(q)
  {
    forall i | 0 <= i < |p| + |q|
      ensures PacketKeys(p + q)[i] == (PacketKeys(p) + PacketKeys(q))[i]
    {
      if i < |p| {
        assert (p + q)[i] == p[i];
      } else {
        assert (p + q)[i] == q[i - |p|];
      }
    }
  }

  lemma AllKeysConcat(p: seq<string>, q: seq<string>)
    ensures AllKeys(p + q) == AllKeys(p) + AllKeys(q)
  {
    PacketKeysConcat(p, q);
    FlattenConcat(PacketKeys(p), PacketKeys(q));
  }

  lemma AllKeysOne(packet: string)
    ensures AllKeys([packet]) == ParseKeys(packet)
  {
    var lists := PacketKeys([packet]);
    assert lists == [ParseKeys(packet)];
    assert lists[..0] == [];
    assert Flatten(lists) == Flatten([]) + lists[0];
  }

  /** Index of the first key whose tile cannot be fetched or decoded, or |keys| when all can. */
  function FirstFailure(keys: seq<string>, getTile: string -> Result<Tile, string>, gunzip: Bytes -> Result<Bytes, string>): (n: nat)
    ensures n <= |keys|
    ensures forall k :: 0 <= k < n ==> FetchTile(keys[k], getTile, gunzip).Success?
    ensures n < |keys| ==> FetchTile(keys[n], getTile, gunzip).Failure?
    decreases |keys|
  {
    if keys == [] then 0
    else if FetchTile(keys[0], getTile, gunzip).Failure? then 0
    else 1 + FirstFailure(keys[1..], getTile, gunzip)
  }

  predicate AllFetched(keys: seq<string>, getTile: string -> Result<Tile, string>, gunzip: Bytes -> Result<Bytes, string>) {
    forall k :: 0 <= k < |keys| ==> FetchTile(keys[k], getTile, gunzip).Success?
  }

  /** One write per key, in key order, each to the key's flat file with the tile's bytes. */
  function TileWrites(id: Option<string>, format: Option<string>, keys: seq<string>,
                      getTile: string -> Result<Tile, string>, gunzip: Bytes -> Result<Bytes, string>): (ws: seq<Write>)
    requires AllFetched(keys, getTile, gunzip)
  {
    seq(|keys|, k requires 0 <= k < |keys| && FetchTile(keys[k], getTile, gunzip).Success? =>
      Write(TilePath(id, keys[k], format), FetchTile(keys[k], getTile, gunzip).value))
  }

  /**
   * A run over the keys of the stream, once they are read: rejected for a scheme other than
   * xyz; otherwise `info.json`, then one write per key up to the first key that cannot be
   * fetched or decoded, and either that key's error or the descriptor.
   */
  function RunOver(info: Info, opts: Opts, infoJson: Bytes, keys: seq<string>,
                   getTile: string -> Result<Tile, string>, gunzip: Bytes -> Result<Bytes, string>, cid: string): Run {
    if !SchemeAccepted(info.scheme) then Run([], SchemeRejected(SchemeError(info.scheme)))
    else
      var id := TilesetId(opts, info);
      var n := FirstFailure(keys, getTile, gunzip);
      var writes := [Write(InfoPath(id), infoJson)] + TileWrites(id, info.format, keys[..n], getTile, gunzip);
      if n < |keys| then Run(writes, TileFailed(keys[n], FetchTile(keys[n], getTile, gunzip).error))
      else Run(writes, Published(DescriptorPath(id), BuildTileJson(info, opts, id, cid)))
  }

  /** The specification of a run of `addMbtiles`: a run over the keys of the whole stream. */
  function Expected(archive: Archive, opts: Opts, gunzip: Bytes -> Result<Bytes, string>, cid: string): Run {
    RunOver(archive.info, opts, archive.infoJson, AllKeys(archive.packets), archive.getTile, gunzip, cid)
  }

  /** A rejected scheme is the only way a run writes nothing, and it names the scheme. */
  lemma RejectedRun(info: Info, opts: Opts, infoJson: Bytes, keys: seq<string>,
                    getTile: string -> Result<Tile, string>, gunzip: Bytes -> Result<Bytes, string>, cid: string)
    ensures var run := RunOver(info, opts, infoJson, keys, getTile, gunzip, cid);
            && (run.outcome.SchemeRejected? <==> !SchemeAccepted(info.scheme))
            && (run.outcome.SchemeRejected? <==> run.writes == [])
            && (run.outcome.SchemeRejected? ==> run.outcome.message == SchemeError(info.scheme))
  {
  }

  /** An accepted run writes `info.json` first. */
  lemma InfoWrittenFirst(info: Info, opts: Opts, infoJson: Bytes, keys: seq<string>,
                         getTile: string -> Result<Tile, string>, gunzip: Bytes -> Result<Bytes, string>, cid: string)
    requires SchemeAccepted(info.scheme)
    ensures var run := RunOver(info, opts, infoJson, keys, getTile, gunzip, cid);
            && |run.writes| >= 1
            && run.writes[0] == Write(InfoPath(TilesetId(opts, info)), infoJson)
  {
  }

  /** A run publishes exactly when the scheme is accepted and every key can be fetched and
      decoded; it then writes once per key besides `info.json`. */
  lemma PublishedRun(info: Info, opts: Opts, infoJson: Bytes, keys: seq<string>,
                     getTile: string -> Result<Tile, string>, gunzip: Bytes -> Result<Bytes, string>, cid: string)
    ensures var run := RunOver(info, opts, infoJson, keys, getTile, gunzip, cid);
            && (run.outcome.Published? <==> SchemeAccepted(info.scheme) && AllFetched(keys, getTile, gunzip))
            && (run.outcome.Published? ==> |run.writes| == |keys| + 1)
  {
    var n := FirstFailure(keys, getTile, gunzip);
    if n < |keys| {
      assert FetchTile(keys[n], getTile, gunzip).Failure?;
    } else {
      assert keys[..n] == keys;
    }
  }

  /** A run that meets an unreadable tile ends with that tile's key and error, after writing
      exactly the keys before it: the first failing key. */
  lemma FailedRun(info: Info, opts: Opts, infoJson: Bytes, keys: seq<string>,
                  getTile: string -> Result<Tile, string>, gunzip: Bytes -> Result<Bytes, string>, cid: string)
    ensures var run := RunOver(info, opts, infoJson, keys, getTile, gunzip, cid);
            var n := |run.writes| - 1;
            run.outcome.TileFailed? ==>
              && 0 <= n < |keys|
              && AllFetched(keys[..n], getTile, gunzip)
              && FetchTile(keys[n], getTile, gunzip) == Failure(run.outcome.message)
              && run.outcome.key == keys[n]
  {
  }

  /** After `info.json`, write `k` stores the tile of key `k - 1`, decoded, at that key's flat path. */
  lemma TileWritesInOrder(info: Info, opts: Opts, infoJson: Bytes, keys: seq<string>,
                          getTile: string -> Result<Tile, string>, gunzip: Bytes -> Result<Bytes, string>, cid: string, k: nat)
    requires 1 <= k < |RunOver(info, opts, infoJson, keys, getTile, gunzip, cid).writes|
    ensures var run := RunOver(info, opts, infoJson, keys, getTile, gunzip, cid);
            var data := FetchTile(keys[k - 1], getTile, gunzip);
            && k - 1 < |keys|
            && data.Success?
            && run.writes[k] == Write(TilePath(TilesetId(opts, info), keys[k - 1], info.format), data.value)
  {
    var n := FirstFailure(keys, getTile, gunzip);
    var id := TilesetId(opts, info);
    var writes := [Write(InfoPath(id), infoJson)] + TileWrites(id, info.format, keys[..n], getTile, gunzip);
    assert RunOver(info, opts, infoJson, keys, getTile, gunzip, cid).writes == writes;
    TileWriteAt(id, info.format, infoJson, keys, n, getTile, gunzip, k);
  }

  /** Write `k` of `info.json` followed by the tile writes of the first `n` keys. */
  lemma TileWriteAt(id: Option<string>, format: Option<string>, infoJson: Bytes, keys: seq<string>, n: nat,
                    getTile: string -> Result<Tile, string>, gunzip: Bytes -> Result<Bytes, string>, k: nat)
    requires n <= |keys| && AllFetched(keys[..n], getTile, gunzip) && 1 <= k <= n
    ensures FetchTile(keys[k - 1], getTile, gunzip).Success?
    ensures ([Write(InfoPath(id), infoJson)] + TileWrites(id, format, keys[..n], getTile, gunzip))[k]
         == Write(TilePath(id, keys[k - 1], format), FetchTile(keys[k - 1], getTile, gunzip).value)
  {
    assert keys[..n][k - 1] == keys[k - 1];
  }

  /** A published run wrote `info.json` and then every key's tile, in key order, and nothing else. */
  lemma PublishedWrites(info: Info, opts: Opts, infoJson: Bytes, keys: seq<string>,
                        getTile: string -> Result<Tile, string>, gunzip: Bytes -> Result<Bytes, string>, cid: string)
    requires RunOver(info, opts, infoJson, keys, getTile, gunzip, cid).outcome.Published?
    ensures SchemeAccepted(info.scheme) && AllFetched(keys, getTile, gunzip)
    ensures var id := TilesetId(opts, info);
            RunOver(info, opts, infoJson, keys, getTile, gunzip, cid).writes
              == [Write(InfoPath(id), infoJson)] + TileWrites(id, info.format, keys, getTile, gunzip)
  {
    assert keys[..FirstFailure(keys, getTile, gunzip)] == keys;
  }

  /** One id throughout: every write of an accepted run lands inside `/tiles-{id}`, directly so
      (no further `/` in its name) when the format holds no `/`, and the descriptor is written
      under the same id. */
  lemma RunUsesOneId(info: Info, opts: Opts, infoJson: Bytes, keys: seq<string>,
                     getTile: string -> Result<Tile, string>, gunzip: Bytes -> Result<Bytes, string>, cid: string)
    requires SchemeAccepted(info.scheme)
    ensures var id := TilesetId(opts, info);
            var run := RunOver(info, opts, infoJson, keys, getTile, gunzip, cid);
            && (forall k :: 0 <= k < |run.writes| ==>
                  |run.writes[k].path| > |DirPath(id)| + 1 && run.writes[k].path[..|DirPath(id)| + 1] == DirPath(id) + "/")
            && ('/' !in Render(info.format) ==>
                  forall k :: 0 <= k < |run.writes| ==> '/' !in run.writes[k].path[|DirPath(id)| + 1..])
            && (run.outcome.Published? ==> run.outcome.descriptorPath == "public/static/tilejson/" + Render(id) + ".json")
  {
    var id := TilesetId(opts, info);
    var writes := RunOver(info, opts, infoJson, keys, getTile, gunzip, cid).writes;
    InfoWrittenFirst(info, opts, infoJson, keys, getTile, gunzip, cid);
    forall k | 0 <= k < |writes|
      ensures |writes[k].path| > |DirPath(id)| + 1 && writes[k].path[..|DirPath(id)| + 1] == DirPath(id) + "/"
      ensures '/' !in Render(info.format) ==> '/' !in writes[k].path[|DirPath(id)| + 1..]
    {
      if k == 0 {
        assert writes[0].path == DirPath(id) + "/" + "info.json";
        assert writes[0].path[|DirPath(id)| + 1..] == "info.json";
      } else {
        TileWritesInOrder(info, opts, infoJson, keys, getTile, gunzip, cid, k);
      }
    }
  }

  /** The stream lines of a sequence of tiles. */
  function KeyTexts(tiles: seq<TileKey>): (keys: seq<string>)
    ensures |keys| == |tiles|
  {
    seq(|tiles|, k requires 0 <= k < |tiles| => KeyText(tiles[k]))
  }

  /** A log made of `info.json` and then one write per tile, each with that tile's decoded
      bytes, leaves `info.json` and every tile's bytes at their paths. */
  lemma TileDirectory(dir: Directory, id: Option<string>, format: Option<string>, infoJson: Bytes, tiles: seq<TileKey>,
                getTile: string -> Result<Tile, string>, gunzip: Bytes -> Result<Bytes, string>, writes: seq<Write>, j: nat)
    requires |writes| == |tiles| + 1 && j < |tiles|
    requires writes[0] == Write(InfoPath(id), infoJson)
    requires forall k :: 0 <= k < |tiles| ==>
               && FetchTile(KeyText(tiles[k]), getTile, gunzip).Success?
               && writes[k + 1] == Write(TilePath(id, KeyText(tiles[k]), format), FetchTile(KeyText(tiles[k]), getTile, gunzip).value)
    ensures InfoPath(id) in Apply(dir, writes) && Apply(dir, writes)[InfoPath(id)] == infoJson
    ensures var path := TilePath(id, KeyText(tiles[j]), format);
            path in Apply(dir, writes) && Apply(dir, writes)[path] == FetchTile(KeyText(tiles[j]), getTile, gunzip).value
  {
    forall k | 1 <= k < |writes|
      ensures writes[k].path != writes[0].path
    {
      InfoIsNotATile(id, format, tiles[k - 1]);
    }
    LastWriteWins(dir, writes, 0);
    var path := TilePath(id, KeyText(tiles[j]), format);
    var data := FetchTile(KeyText(tiles[j]), getTile, gunzip).value;
    forall k | 0 <= k < |writes| && writes[k].path == path
      ensures writes[k].data == data
    {
      if k > 0 {
        DistinctTilesDistinctPaths(id, format, tiles[k - 1], tiles[j]);
      }
    }
    assert writes[j + 1].path == path;
    ApplyAgreeing(dir, writes, path, data);
  }

  /** The same log with the writes as called (no truncation), into a directory that did not
      yet hold `info.json` or the tile's file: both files are created with exactly those bytes. */
  lemma TileDirectoryAsCalled(dir: Directory, id: Option<string>, format: Option<string>, infoJson: Bytes, tiles: seq<TileKey>,
                              getTile: string -> Result<Tile, string>, gunzip: Bytes -> Result<Bytes, string>, writes: seq<Write>, j: nat)
    requires |writes| == |tiles| + 1 && j < |tiles|
    requires writes[0] == Write(InfoPath(id), infoJson)
    requires forall k :: 0 <= k < |tiles| ==>
               && FetchTile(KeyText(tiles[k]), getTile, gunzip).Success?
               && writes[k + 1] == Write(TilePath(id, KeyText(tiles[k]), format), FetchTile(KeyText(tiles[k]), getTile, gunzip).value)
    requires InfoPath(id) !in dir && TilePath(id, KeyText(tiles[j]), format) !in dir
    ensures InfoPath(id) in ApplyAsCalled(dir, writes) && ApplyAsCalled(dir, writes)[InfoPath(id)] == infoJson
    ensures var path := TilePath(id, KeyText(tiles[j]), format);
            path in ApplyAsCalled(dir, writes) && ApplyAsCalled(dir, writes)[path] == FetchTile(KeyText(tiles[j]), getTile, gunzip).value
  {
    forall k | 1 <= k < |writes|
      ensures writes[k].path != InfoPath(id)
    {
      InfoIsNotATile(id, format, tiles[k - 1]);
    }
    ApplyAsCalledAgreeing(dir, writes, InfoPath(id), infoJson);
    var path := TilePath(id, KeyText(tiles[j]), format);
    var data := FetchTile(KeyText(tiles[j]), getTile, gunzip).value;
    forall k | 0 <= k < |writes| && writes[k].path == path
      ensures writes[k].data == data
    {
      if k > 0 {
        DistinctTilesDistinctPaths(id, format, tiles[k - 1], tiles[j]);
      }
    }
    assert writes[j + 1].path == path;
    ApplyAsCalledAgreeing(dir, writes, path, data);
  }

  /** The tile writes over the lines of some tiles: write `k` stores tile `k`'s bytes at its path. */
  lemma TileWritesOfTiles(id: Option<string>, format: Option<string>, infoJson: Bytes, tiles: seq<TileKey>,
                          getTile: string -> Result<Tile, string>, gunzip: Bytes -> Result<Bytes, string>, k: nat)
    requires AllFetched(KeyTexts(tiles), getTile, gunzip) && k < |tiles|
    ensures FetchTile(KeyText(tiles[k]), getTile, gunzip).Success?
    ensures ([Write(InfoPath(id), infoJson)] + TileWrites(id, format, KeyTexts(tiles), getTile, gunzip))[k + 1]
         == Write(TilePath(id, KeyText(tiles[k]), format), FetchTile(KeyText(tiles[k]), getTile, gunzip).value)
  {
    var ws := TileWrites(id, format, KeyTexts(tiles), getTile, gunzip);
    assert ([Write(InfoPath(id), infoJson)] + ws)[k + 1] == ws[k];
    assert KeyTexts(tiles)[k] == KeyText(tiles[k]);
  }

  /** In the log `info.json` and then the tile writes over the lines of some tiles, write
      `k + 1` stores tile `k`'s decoded bytes at that tile's flat path. */
  lemma TileLogShape(id: Option<string>, format: Option<string>, infoJson: Bytes, tiles: seq<TileKey>,
                     getTile: string -> Result<Tile, string>, gunzip: Bytes -> Result<Bytes, string>, writes: seq<Write>)
    requires AllFetched(KeyTexts(tiles), getTile, gunzip)
    requires writes == [Write(InfoPath(id), infoJson)] + TileWrites(id, format, KeyTexts(tiles), getTile, gunzip)
    ensures |writes| == |tiles| + 1
    ensures forall k :: 0 <= k < |tiles| ==>
               && FetchTile(KeyText(tiles[k]), getTile, gunzip).Success?
               && writes[k + 1] == Write(TilePath(id, KeyText(tiles[k]), format), FetchTile(KeyText(tiles[k]), getTile, gunzip).value)
  {
    forall k | 0 <= k < |tiles|
      ensures && FetchTile(KeyText(tiles[k]), getTile, gunzip).Success?
              && writes[k + 1] == Write(TilePath(id, KeyText(tiles[k]), format), FetchTile(KeyText(tiles[k]), getTile, gunzip).value)
    {
      TileWritesOfTiles(id, format, infoJson, tiles, getTile, gunzip, k);
    }
  }

  /**
   * Once a run over the lines of a ZXY stream has published, the tileset directory holds
   * `info.json` and, for every tile of the stream, that tile's decoded bytes at its flat
   * path, provided each write leaves exactly its data in the file (Mfs.Apply).
   */
  lemma PublishedDirectory(info: Info, opts: Opts, infoJson: Bytes, tiles: seq<TileKey>,
                           getTile: string -> Result<Tile, string>, gunzip: Bytes -> Result<Bytes, string>, cid: string,
                           dir: Directory, j: nat)
    requires RunOver(info, opts, infoJson, KeyTexts(tiles), getTile, gunzip, cid).outcome.Published?
    requires j < |tiles|
    ensures var id := TilesetId(opts, info);
            var files := Apply(dir, RunOver(info, opts, infoJson, KeyTexts(tiles), getTile, gunzip, cid).writes);
            var path := TilePath(id, KeyText(tiles[j]), info.format);
            var data := FetchTile(KeyText(tiles[j]), getTile, gunzip);
            && InfoPath(id) in files && files[InfoPath(id)] == infoJson
            && data.Success?
            && path in files && files[path] == data.value
  {
    PublishedWrites(info, opts, infoJson, KeyTexts(tiles), getTile, gunzip, cid);
    var run := RunOver(info, opts, infoJson, KeyTexts(tiles), getTile, gunzip, cid);
    TileLogShape(TilesetId(opts, info), info.format, infoJson, tiles, getTile, gunzip, run.writes);
    TileDirectory(dir, TilesetId(opts, info), info.format, infoJson, tiles, getTile, gunzip, run.writes, j);
  }

  /**
   * The same for the writes as the source issues them (no truncation), on a first import: when
   * the directory did not yet hold `info.json` or the tile's file, a published run leaves
   * exactly `info.json` and the tile's decoded bytes there.
   */
  lemma PublishedDirectoryAsCalled(info: Info, opts: Opts, infoJson: Bytes, tiles: seq<TileKey>,
                                   getTile: string -> Result<Tile, string>, gunzip: Bytes -> Result<Bytes, string>, cid: string,
                                   dir: Directory, j: nat)
    requires RunOver(info, opts, infoJson, KeyTexts(tiles), getTile, gunzip, cid).outcome.Published?
    requires j < |tiles|
    requires InfoPath(TilesetId(opts, info)) !in dir
    requires TilePath(TilesetId(opts, info), KeyText(tiles[j]), info.format) !in dir
    ensures var id := TilesetId(opts, info);
            var files := ApplyAsCalled(dir, RunOver(info, opts, infoJson, KeyTexts(tiles), getTile, gunzip, cid).writes);
            var path := TilePath(id, KeyText(tiles[j]), info.format);
            var data := FetchTile(KeyText(tiles[j]), getTile, gunzip);
            && InfoPath(id) in files && files[InfoPath(id)] == infoJson
            && data.Success?
            && path in files && files[path] == data.value
  {
    PublishedWrites(info, opts, infoJson, KeyTexts(tiles), getTile, gunzip, cid);
    var run := RunOver(info, opts, infoJson, KeyTexts(tiles), getTile, gunzip, cid);
    TileLogShape(TilesetId(opts, info), info.format, infoJson, tiles, getTile, gunzip, run.writes);
    TileDirectoryAsCalled(dir, TilesetId(opts, info), info.format, infoJson, tiles, getTile, gunzip, run.writes, j);
  }

  lemma TileWritesSnoc(id: Option<string>, format: Option<string>, keys: seq<string>, key: string,
                       getTile: string -> Result<Tile, string>, gunzip: Bytes -> Result<Bytes, string>)
    requires AllFetched(keys + [key], getTile, gunzip)
    ensures AllFetched(keys, getTile, gunzip) && FetchTile(key, getTile, gunzip).Success?
    ensures TileWrites(id, format, keys + [key], getTile, gunzip)
         == TileWrites(id, format, keys, getTile, gunzip)
            + [Write(TilePath(id, key, format), FetchTile(key, getTile, gunzip).value)]
  {
    assert forall k :: 0 <= k < |keys| ==> (keys + [key])[k] == keys[k];
    assert (keys + [key])[|keys|] == key;
  }

  /** The first failing key is the one right after a prefix of keys that all succeeded. */
  lemma FirstFailureAt(keys: seq<string>, n: nat, getTile: string -> Result<Tile, string>, gunzip: Bytes -> Result<Bytes, string>)
    requires n < |keys| && AllFetched(keys[..n], getTile, gunzip)
    requires FetchTile(keys[n], getTile, gunzip).Failure?
    ensures FirstFailure(keys, getTile, gunzip) == n
  {
    assert forall k :: 0 <= k < n ==> keys[..n][k] == keys[k];
  }

  /** Where element `j` of list `i` sits in the flattened lists. */
  lemma FlattenPosition(lists: seq<seq<string>>, i: nat, j: nat)
    requires i < |lists| && j < |lists[i]|
    ensures var before := Flatten(lists[..i]);
            var all := Flatten(lists);
            && |before| + j < |all|
            && all[..|before| + j] == before + lists[i][..j]
            && all[|before| + j] == lists[i][j]
  {
    assert lists == lists[..i] + [lists[i]] + lists[i + 1..];
    FlattenConcat(lists[..i] + [lists[i]], lists[i + 1..]);
    FlattenConcat(lists[..i], [lists[i]]);
    assert [lists[i]][..0] == [];
    assert Flatten([lists[i]]) == Flatten([]) + lists[i];
    var before := Flatten(lists[..i]);
    assert Flatten(lists) == before + lists[i] + Flatten(lists[i + 1..]);
  }

  /** `await getTile(tileKey)`, then gunzip when the header says so (lib/index.js:41-47). */
  method FetchAndDecode(key: string, getTile: string -> Result<Tile, string>, gunzip: Bytes -> Result<Bytes, string>)
    returns (r: Result<Bytes, string>)
    ensures r == FetchTile(key, getTile, gunzip)
  {
    var tile := getTile(key);
    if tile.Failure? {
      return Failure(tile.error);
    }
    if IsGzipped(tile.value) {
      r := gunzip(tile.value.data);
    } else {
      r := Success(tile.value.data);
    }
  }

  lemma TileWritesConcat(id: Option<string>, format: Option<string>, a: seq<string>, b: seq<string>,
                         getTile: string -> Result<Tile, string>, gunzip: Bytes -> Result<Bytes, string>)
    requires AllFetched(a, getTile, gunzip) && AllFetched(b, getTile, gunzip)
    ensures AllFetched(a + b, getTile, gunzip)
    ensures TileWrites(id, format, a + b, getTile, gunzip)
         == TileWrites(id, format, a, getTile, gunzip) + TileWrites(id, format, b, getTile, gunzip)
  {
    assert forall k :: 0 <= k < |a| ==> (a + b)[k] == a[k];
    assert forall k :: |a| <= k < |a| + |b| ==> (a + b)[k] == b[k - |a|];
  }

  /** A packet whose keys were all written extends the log by exactly its writes. */
  lemma PacketWritten(id: Option<string>, format: Option<string>, lists: seq<seq<string>>, i: nat,
                      done: seq<string>, written: seq<Write>,
                      getTile: string -> Result<Tile, string>, gunzip: Bytes -> Result<Bytes, string>)
    requires i < |lists| && done == Flatten(lists[..i])
    requires AllFetched(done, getTile, gunzip) && AllFetched(lists[i], getTile, gunzip)
    requires written == TileWrites(id, format, lists[i], getTile, gunzip)
    ensures Flatten(lists[..i + 1]) == done + lists[i]
    ensures AllFetched(done + lists[i], getTile, gunzip)
    ensures TileWrites(id, format, done, getTile, gunzip) + written
         == TileWrites(id, format, done + lists[i], getTile, gunzip)
  {
    assert lists[..i + 1] == lists[..i] + [lists[i]];
    TileWritesConcat(id, format, done, lists[i], getTile, gunzip);
  }

  /** A packet whose key `n` cannot be read: that key is the stream's first failure, and the
      keys written so far are exactly the stream's keys before it. */
  lemma PacketStopped(id: Option<string>, format: Option<string>, lists: seq<seq<string>>, i: nat, n: nat,
                      done: seq<string>, written: seq<Write>,
                      getTile: string -> Result<Tile, string>, gunzip: Bytes -> Result<Bytes, string>)
    requires i < |lists| && done == Flatten(lists[..i]) && n < |lists[i]|
    requires AllFetched(done, getTile, gunzip) && AllFetched(lists[i][..n], getTile, gunzip)
    requires FetchTile(lists[i][n], getTile, gunzip).Failure?
    requires written == TileWrites(id, format, lists[i][..n], getTile, gunzip)
    ensures var all := Flatten(lists);
            var m := |done| + n;
            && m < |all|
            && FirstFailure(all, getTile, gunzip) == m
            && all[m] == lists[i][n]
            && AllFetched(all[..m], getTile, gunzip)
            && TileWrites(id, format, done, getTile, gunzip) + written
               == TileWrites(id, format, all[..m], getTile, gunzip)
  {
    FlattenPosition(lists, i, n);
    TileWritesConcat(id, format, done, lists[i][..n], getTile, gunzip);
    FirstFailureAt(Flatten(lists), |done| + n, getTile, gunzip);
  }

  /** When every key can be read, no key fails. */
  lemma NoFailure(keys: seq<string>, getTile: string -> Result<Tile, string>, gunzip: Bytes -> Result<Bytes, string>)
    requires AllFetched(keys, getTile, gunzip)
    ensures FirstFailure(keys, getTile, gunzip) == |keys|
  {
  }

  /** Why a run stopped early: the key whose tile could not be fetched or decoded, and the error. */
  datatype Stop = Stop(key: string, message: string)

  /** The inner loop over the keys of one packet: one write per key, in order, up to the
      first key whose tile cannot be fetched or decoded. */
  method WritePacket(id: Option<string>, format: Option<string>, keys: seq<string>,
                     getTile: string -> Result<Tile, string>, gunzip: Bytes -> Result<Bytes, string>)
    returns (written: seq<Write>, stop: Option<Stop>)
    ensures var n := FirstFailure(keys, getTile, gunzip);
            && AllFetched(keys[..n], getTile, gunzip)
            && written == TileWrites(id, format, keys[..n], getTile, gunzip)
            && (stop.None? <==> n == |keys|)
            && (stop.Some? ==> stop.value == Stop(keys[n], FetchTile(keys[n], getTile, gunzip).error))
  {
    written := [];
    var j := 0;
    while j < |keys|
      invariant 0 <= j <= |keys|
      invariant AllFetched(keys[..j], getTile, gunzip)
      invariant written == TileWrites(id, format, keys[..j], getTile, gunzip)
    {
      var key := keys[j];
      var data := FetchAndDecode(key, getTile, gunzip);
      if data.Failure? {
        FirstFailureAt(keys, j, getTile, gunzip);
        return written, Some(Stop(key, data.error));
      }
      assert keys[..j + 1] == keys[..j] + [key];
      TileWritesSnoc(id, format, keys[..j], key, getTile, gunzip);
      written := written + [Write(TilePath(id, key, format), data.value)];
      j := j + 1;
    }
    assert keys[..j] == keys;
    stop := None;
  }

  /**
   * The outer loop over the ZXY stream: the keys of each packet in turn, up to the first key
   * of the whole stream whose tile cannot be fetched or decoded.
   */
  method StreamTiles(id: Option<string>, format: Option<string>, packets: seq<string>,
                     getTile: string -> Result<Tile, string>, gunzip: Bytes -> Result<Bytes, string>)
    returns (written: seq<Write>, stop: Option<Stop>)
    ensures var keys := AllKeys(packets);
            var n := FirstFailure(keys, getTile, gunzip);
            && AllFetched(keys[..n], getTile, gunzip)
            && written == TileWrites(id, format, keys[..n], getTile, gunzip)
            && (stop.None? <==> n == |keys|)
            && (stop.Some? ==> stop.value == Stop(keys[n], FetchTile(keys[n], getTile, gunzip).error))
  {
    ghost var lists := PacketKeys(packets);
    ghost var done: seq<string> := [];
    written := [];
    var i := 0;
    while i < |packets|
      invariant 0 <= i <= |packets|
      invariant done == Flatten(lists[..i])
      invariant AllFetched(done, getTile, gunzip)
      invariant written == TileWrites(id, format, done, getTile, gunzip)
    {
      var keys := ParseKeys(packets[i]);
      assert keys == lists[i];
      var more, packetStop := WritePacket(id, format, keys, getTile, gunzip);
      ghost var n := FirstFailure(keys, getTile, gunzip);
      if packetStop.Some? {
        PacketStopped(id, format, lists, i, n, done, more, getTile, gunzip);
        return written + more, packetStop;
      }
      assert keys[..n] == keys;
      PacketWritten(id, format, lists, i, done, more, getTile, gunzip);
      written := written + more;
      done := done + keys;
      i := i + 1;
    }
    assert lists[..i] == lists;
    NoFailure(done, getTile, gunzip);
    assert done[..|done|] == done;
    stop := None;
  }

  /**
   * `addMbtiles`. `gunzip` stands for zlib's decoder and `cid` for the CID `ipfs.files.stat`
   * reports for the directory once the writes are done; the writes are returned as the
   * sequence of `ipfs.files.write` calls issued, in order.
   */
  method AddMbtiles(archive: Archive, opts: Opts, gunzip: Bytes -> Result<Bytes, string>, cid: string)
    returns (writes: seq<Write>, outcome: Outcome)
    ensures Run(writes, outcome) == Expected(archive, opts, gunzip, cid)
  {
    var info := archive.info;
    if Truthy(info.scheme) && info.scheme.value != "xyz" {
      return [], SchemeRejected(SchemeError(info.scheme));
    }
    var id := Or(opts.id, info.id);
    assert id == TilesetId(opts, info);
    writes := [Write(DirPath(id) + "/info.json", archive.infoJson)];
    var written, stop := StreamTiles(id, info.format, archive.packets, archive.getTile, gunzip);
    writes := writes + written;
    if stop.Some? {
      outcome := TileFailed(stop.value.key, stop.value.message);
    } else {
      outcome := Published(DescriptorPath(id), BuildTileJson(info, opts, id, cid));
    }
  }
}
