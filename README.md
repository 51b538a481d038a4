# ipfs-tiles: `addMbtiles` in Dafny

A model of `addMbtiles` from `lib/index.js` of ipfs-tiles. This command publishes an MBTiles archive as a flat directory of tile files in the IPFS mutable file system (MFS), and derives a TileJSON 3.0.0 descriptor for it. The model covers these steps:

- **Scheme check.** Any scheme other than a missing, empty or `xyz` one throws before anything is written.
- **Tileset id.** The id is `opts.id || info.id`.
- **`info.json`.** It is written to `/tiles-{id}`.
- **The write loop.** It walks the archive's ZXY stream packet by packet. Each packet is split into lines, each line is trimmed, and blank lines are dropped. Each key is then fetched. A tile is gunzipped only when its `Content-Encoding` header is exactly `gzip`. The bytes go to `/tiles-{id}/z-x-y.{format}`.
- **The descriptor.** It is built from the metadata and the options. Its tile URL template points at the directory's CID on a gateway, or at a fixed domain. It is meant for `public/static/tilejson/{id}.json`.

Modules, one per file:

| file | module | what it holds |
|---|---|---|
| `wrappers.dfy` | `Wrappers` | `Option` (a JavaScript value that may be `undefined`) and `Result` (a step that may throw) |
| `js_strings.dfy` | `JsStrings` | the JavaScript string behaviour the code relies on |
| `zxy_keys.dfy` | `ZxyKeys` | packet → keys, and a tile's `z/x/y` line |
| `metadata.dfy` | `Metadata` | `info`, `opts`, the scheme check and the id |
| `mfs_paths.dfy` | `MfsPaths` | the directory, `info.json`, tile and descriptor paths |
| `mfs.dfy` | `Mfs` | what a sequence of `ipfs.files.write` calls leaves in the directory |
| `descriptor.dfy` | `Descriptor` | the TileJSON object literal and the expansion of its URL template |
| `add_mbtiles.dfy` | `AddMbtiles` | the write loop as methods, and `Expected`, the function that specifies a whole run |

The JavaScript string behaviour in `JsStrings` is:

- `||` over strings that may be `undefined`;
- template-literal rendering;
- `trim`, using the white-space set of ECMA-262;
- `split('\n')`;
- `replace(/\//g, '-')`.

A run is modelled as the sequence of MFS writes it issues plus its outcome. The outcome is one of three:

- the scheme error;
- the key and error of the first tile that could not be fetched or decoded (the `await` throws, and the writes issued so far stay);
- the descriptor together with its path.

`AddMbtiles.AddMbtiles` is the imperative loop:

- `StreamTiles` walks the packets, and `WritePacket` walks the keys of one packet.
- Each appends to a write log held in a `seq`.
- `WritePacket` and `StreamTiles` are proved equal to `TileWrites` over the keys before `FirstFailure`, with that key's error as the stop.
- `AddMbtiles` itself is proved equal to the specification `Expected`.

The lemmas beside the loop say what that specification promises:

- `info.json` comes first.
- Then there is one write per key, in stream order.
- Publication happens exactly when every tile could be read.
- Every tile ends up at its own file.
- The descriptor's template addresses exactly those files.

## Model

| member | source | states |
|---|---|---|
| Metadata.SchemeAccepted | lib/index.js:31 | a scheme is accepted exactly when it is missing, empty or `xyz` |
| AddMbtiles.RejectedRun | lib/index.js:31 | a run is rejected exactly when the scheme is not accepted, and exactly when it issues no write at all (the check precedes every MFS write); the error names the scheme |
| Metadata.SchemeError | lib/index.js:31 | the message thrown for a rejected scheme: `Only xyz schema is supported, found ` followed by the rendered scheme; definition |
| JsStrings.Or | lib/index.js:32 | `a \|\| b` on strings that may be `undefined`: `a` when it is neither `undefined` nor `''`, else `b`; definition, related to the reference chain by `OrChain3` and `TilesetId` |
| JsStrings.Render | lib/index.js:33 | `${v}` in a template literal: the text itself, or `undefined` for a missing value; definition |
| Metadata.TilesetId | lib/index.js:32 | the id is the first non-empty of `opts.id` and `info.id`, or `info.id` when neither is non-empty |
| JsStrings.FirstTruthy | lib/index.js:56-59 | reference definition of an `a \|\| b \|\| …` chain: the result is one of the operands; it is truthy iff some operand is; it is the first truthy operand, or else the last operand |
| JsStrings.OrChain3 | lib/index.js:56-59 | `(a \|\| b) \|\| c` evaluates to that reference |
| JsStrings.Trim | lib/index.js:39 | `trim` leaves no white space at either end and never lengthens the text |
| JsStrings.TrimStartShape | lib/index.js:39 | the leading cut is a white-space prefix, and the rest starts with a non-white-space character |
| JsStrings.TrimEndShape | lib/index.js:39 | the trailing cut is a white-space suffix, and the rest ends with a non-white-space character |
| JsStrings.TrimIsInfix | lib/index.js:39 | `trim` returns an infix of its input, and everything cut off on both sides is white space |
| JsStrings.TrimOfMargins | lib/index.js:39 | converse: white space + trimmed core + white space trims to exactly that core, so Trim is characterised completely |
| JsStrings.TrimTrimmed | lib/index.js:39 | trimming a trimmed text changes nothing |
| JsStrings.TrimChars | lib/index.js:39 | every character of the trimmed text occurs in the input |
| JsStrings.SplitLines | lib/index.js:39 | `split('\n')` gives at least one piece, and no piece holds a newline |
| JsStrings.SplitLinesCount | lib/index.js:39 | it gives exactly one more piece than the text has newlines |
| JsStrings.JoinSplit | lib/index.js:39 | joining the pieces with `\n` gives back the text |
| JsStrings.SplitJoin | lib/index.js:39 | splitting a join of newline-free pieces gives back those pieces |
| JsStrings.SplitConcat | lib/index.js:39 | splitting `a + "\n" + b` gives the pieces of `a` followed by the pieces of `b` |
| JsStrings.ReplaceSlashes | lib/index.js:48 | `replace(/\//g, '-')` keeps the length, turns every `/` into `-`, keeps every other character, and leaves no `/` |
| ZxyKeys.TrimAll | lib/index.js:39 | `.map(t => t.trim())`: every line trimmed, in order; definition, whose promise is `TrimAllShape` |
| ZxyKeys.TrimAllShape | lib/index.js:39 | `.map(t => t.trim())` keeps one entry per line, each trimmed and free of newlines |
| ZxyKeys.NonEmpty | lib/index.js:39 | `.filter(t => !!t)`: the non-empty texts, in order; definition, whose promises are `NonEmptyShape` and `NonEmptyConcat` |
| ZxyKeys.NonEmptyShape | lib/index.js:39 | `.filter(t => !!t)` keeps only non-empty entries taken from its input, and never more of them |
| ZxyKeys.NonEmptyConcat | lib/index.js:39 | the filter distributes over concatenation, so it keeps order |
| ZxyKeys.ParseKeys | lib/index.js:39 | the keys of one packet: `split('\n')`, then `trim` on each line, then the non-empty ones; definition, whose promises are the rows below |
| ZxyKeys.ParseKeysAreKeys | lib/index.js:39 | every key of a packet is non-empty, holds no newline and has no white-space margin; there are at most newlines + 1 keys |
| ZxyKeys.ParseKeysOfLines | lib/index.js:39 | the keys of a packet made of given lines are those lines, trimmed, with blank ones dropped, in line order |
| ZxyKeys.ParseKeysLine | lib/index.js:39 | a one-line packet yields its trimmed line, or nothing if the line is blank |
| ZxyKeys.ParseKeysConcat | lib/index.js:39 | the keys of `a + "\n" + b` are the keys of `a` followed by those of `b` |
| ZxyKeys.ParseKeysEmpty | lib/index.js:39 | an empty packet yields no key |
| ZxyKeys.ParseKeysRoundTrip | lib/index.js:39 | round trip: keys written one per line parse back to exactly those keys |
| ZxyKeys.ParseKeysRoundTripTerminated | lib/index.js:39 | the same round trip holds with a trailing newline |
| ZxyKeys.Decimal | lib/index.js:38 | a tile coordinate's text is a non-empty run of digits |
| ZxyKeys.DecimalInjective | lib/index.js:48 | distinct coordinates have distinct decimal texts |
| ZxyKeys.KeyText | lib/index.js:38-39 | the `z/x/y` line the stream emits for a tile is always a valid key |
| MfsPaths.DirPath | lib/index.js:33 | the tileset directory `/tiles-{id}`; definition |
| MfsPaths.InfoPath | lib/index.js:37 | the metadata file `/tiles-{id}/info.json`; definition |
| MfsPaths.DescriptorPath | lib/index.js:70 | the descriptor file `public/static/tilejson/{id}.json`; definition |
| MfsPaths.TileFileName | lib/index.js:48 | a tile's file name is the key with its slashes replaced (exactly `ReplaceSlashes(key)`), then `.` and the format; no `/` occurs before the extension, and none at all when the format has none |
| MfsPaths.TilePath | lib/index.js:48 | a tile's path is `/tiles-{id}/` followed by its file name |
| MfsPaths.ReplaceSlashesParts | lib/index.js:48 | `a/b/c` with slash-free parts becomes `a-b-c` |
| MfsPaths.ZxyFileName | lib/index.js:48 | tile (z, x, y) is stored as `z-x-y.{format}` |
| MfsPaths.DashedTextInjective | lib/index.js:48 | the text `z-x-y` determines the tile |
| MfsPaths.DistinctTilesDistinctPaths | lib/index.js:48 | two tiles share a path only if they are the same tile: the flat layout loses none |
| MfsPaths.InfoIsNotATile | lib/index.js:37-48 | no tile's path is the `info.json` path |
| Mfs.Overlay | lib/index.js:48 | a write with `{ create: true }` and no truncation replaces the first bytes of the file and keeps the prior tail |
| Mfs.Apply | lib/index.js:37-48 | after a log of writes, the directory's files are the prior ones plus every written path |
| Mfs.ApplyUntouched | lib/index.js:37-48 | with truncation (the corrected semantics), a file no write targets keeps its contents |
| Mfs.LastWriteWins | lib/index.js:48 | with truncation, a file holds the data of the last write to its path |
| Mfs.ApplyAgreeing | lib/index.js:48 | with truncation (the corrected semantics), a path whose writes all carry the same bytes ends up holding them |
| Mfs.ApplyAsCalled | lib/index.js:37-48 | the writes as the source issues them, in order: each one creates its file when missing and overlays its bytes from offset 0 (`Mfs.Overlay`); definition, whose promises are the rows below |
| Mfs.ApplyAsCalledAgreeing | lib/index.js:37-48 | as called, on a path the directory did not hold: the file exists exactly when some write targets it, and when all those writes carry the same bytes the file holds exactly them |
| Mfs.StaleTailAsCalled | lib/index.js:48 | as called, writing `[9]` over an existing `[1, 2, 3]` leaves `[9, 2, 3]`; with truncation it leaves `[9]` |
| Descriptor.TilePrefix | lib/index.js:52 | `opts.domain` when it is non-empty, otherwise `{gateway}/ipfs/{cid}`; definition, stated for the built descriptor by `BuildTileJson` |
| Descriptor.OrEmpty | lib/index.js:57-59 | `a \|\| b \|\| ''` for the description, version and attribution; definition, stated against `FirstTruthy` by `BuildTileJson` and `TextFieldsFallBack` |
| Descriptor.BuildTileJson | lib/index.js:52-67 | the fields of the descriptor: <br>• `tilejson` is `3.0.0` and `scheme` is `xyz` <br>• `name` is the first truthy of title, info name and id <br>• description, version and attribution fall back from opts to info to `''` <br>• `tiles` is the single template on the domain, or on `{gateway}/ipfs/{cid}` when there is no domain <br>• zooms, bounds and center are copied <br>• `vector_layers` defaults to `[]` |
| Descriptor.TextFieldsFallBack | lib/index.js:56-59 | description, version and attribution are empty iff neither opts nor info supplies a non-empty value; the name is truthy iff title, info name or id is |
| Descriptor.TileTemplate | lib/index.js:61 | the template `{prefix}/{z}-{x}-{y}.{format}`; definition, whose promises are `ExpandZxyTail` and `TemplateAddressesTileFile` |
| Descriptor.ExpandZxyTail | lib/index.js:61 | the `{z}-{x}-{y}.{format}` part of the template expands to `z-x-y.{format}` |
| Descriptor.TemplateAddressesTileFile | lib/index.js:48-61 | expanding the advertised template for a tile gives the prefix, `/` and exactly the file name the loop wrote that tile to |
| Descriptor.DescriptorLocatesWrittenTiles | lib/index.js:48-61 | without a domain, the built descriptor's template sends each tile to `{gateway}/ipfs/{cid}/` plus that tile's file name |
| AddMbtiles.IsGzipped | lib/index.js:43 | the header test `Content-Encoding === 'gzip'`: present and exactly `gzip`; definition, used by `TileContent` |
| AddMbtiles.TileContent | lib/index.js:43-47 | the bytes are gunzipped when `Content-Encoding` is exactly `gzip`, and passed through unchanged otherwise |
| AddMbtiles.FetchTile | lib/index.js:41-47 | the specification of one tile's step: the `getTile` error, or the result of decoding the tile (`TileContent`); definition |
| AddMbtiles.FetchAndDecode | lib/index.js:41-47 | fetching then decoding one key yields the fetch error, the decode error, or the bytes to write |
| AddMbtiles.FirstFailure | lib/index.js:38-50 | the run stops at the first key whose tile cannot be fetched or decoded: every earlier key succeeds and that key fails |
| AddMbtiles.PacketKeys | lib/index.js:38-39 | one key list per packet |
| AddMbtiles.FlattenConcat | lib/index.js:38-39 | flattening the key lists of `p + q` gives those of `p` followed by those of `q` |
| AddMbtiles.AllKeys | lib/index.js:38-39 | the order the two nested loops visit keys in: the packets' key lists flattened; definition, whose promises are `AllKeysConcat` and `AllKeysOne` |
| AddMbtiles.AllKeysConcat | lib/index.js:38-39 | the stream's keys are packet order, then line order: the keys of `p + q` are those of `p` followed by those of `q` |
| AddMbtiles.AllKeysOne | lib/index.js:38-39 | a single packet contributes exactly its parsed keys |
| AddMbtiles.TileWrites | lib/index.js:48 | one write per key, in key order, of the decoded tile to its flat path; definition, whose promises are `TileWritesInOrder`, `PublishedWrites` and `TileLogShape` |
| AddMbtiles.WritePacket | lib/index.js:39-49 | the inner loop issues one write per key of the packet, in order, up to the packet's first unreadable key, and reports that key and its error |
| AddMbtiles.StreamTiles | lib/index.js:38-50 | the outer loop issues exactly the tile writes of the stream's keys before its first unreadable key, and stops there with that key's error |
| AddMbtiles.RunOver | lib/index.js:31-70 | the specification of a run over the stream's keys: no write on a rejected scheme; otherwise `info.json`, one write per key up to the first unreadable one, and then that key's error or the descriptor and its path; definition, whose promises are the lemma rows below |
| AddMbtiles.Expected | lib/index.js:29-70 | the specification of a whole run: `RunOver` over the keys of all packets in stream order; definition |
| AddMbtiles.AddMbtiles | lib/index.js:29-70 | the method's writes and outcome are exactly `Expected`, the specification of a run |
| AddMbtiles.InfoWrittenFirst | lib/index.js:37 | an accepted run writes `info.json` first |
| AddMbtiles.PublishedRun | lib/index.js:38-52 | a run publishes exactly when the scheme is accepted and every key can be fetched and decoded; it then issues one write per key plus `info.json` |
| AddMbtiles.FailedRun | lib/index.js:38-50 | a failed run names the first unreadable key and that key's error, after writing exactly the keys before it |
| AddMbtiles.TileWritesInOrder | lib/index.js:38-48 | write `k` after `info.json` stores key `k-1`'s decoded bytes at that key's path |
| AddMbtiles.PublishedWrites | lib/index.js:37-50 | a published run wrote `info.json`, then every key's tile in order, and nothing else |
| AddMbtiles.RunUsesOneId | lib/index.js:32-70 | every write lands inside `/tiles-{id}/`, and directly inside it (no `/` after that prefix) whenever the format holds no `/`; the descriptor path carries the same id |
| AddMbtiles.TileLogShape | lib/index.js:37-48 | in the log for a sequence of tiles, write `k+1` stores tile `k`'s bytes at that tile's path |
| AddMbtiles.TileDirectory | lib/index.js:37-48 | with truncation (the corrected semantics), such a log leaves `info.json` and every tile's bytes in their files, duplicated tiles included |
| AddMbtiles.TileDirectoryAsCalled | lib/index.js:37-48 | with the writes as called, such a log into a directory that did not yet hold `info.json` or the tile's file leaves exactly `info.json` and the tile's bytes there |
| AddMbtiles.PublishedDirectory | lib/index.js:36-50 | once a stream of tiles is published, the directory holds `info.json` and each tile's decoded bytes at its flat path (with truncating writes) |
| AddMbtiles.PublishedDirectoryAsCalled | lib/index.js:36-50 | with the writes as the source issues them, on a first import (neither `info.json` nor the tile's file present beforehand): a published run leaves exactly `info.json` and each tile's decoded bytes at its flat path |

## Left out

- IPFS calls (`ipfs.files.mkdir`, `ipfs.files.stat`): the directory's CID is a parameter. Failures of MFS calls are not modelled; only fetch and decode errors end a run early.
- Opening the archive, `getInfo` and `createZXYStream`: the metadata, its serialised `info.json` bytes and the stream's packets are given values.
- `getTile` is a given function from key to tile or error. The spreading of `tileKey.split('/')` into its arguments is not modelled.
- zlib's `gunzip` is a given function from bytes to bytes or an error.
- `JSON.stringify` and its pretty-printing: `info.json` is a given byte sequence, and the descriptor is a record, not its text.
- `fs.writeFile` of the descriptor, `console.log` and `debug`: the descriptor's path and value are the run's outcome, and the local write is not modelled.
- `deploy`, `mbtilesPromise`, the command-line interface in `bin/ipfs-tiles.js` and `nuxt.config.js`: these are plumbing around the core.
- Concurrency: the `await`s run one after another, and the model is sequential.
- JavaScript `null`: Render shows an absent value as `undefined`. A `null` would render as `null`; `Option` does not tell the two apart.
- Packet boundaries: as in the source, each packet is parsed on its own. A line split across two packets would yield two partial keys. The model keeps this behaviour, and the lemmas about whole runs state it in terms of each packet's keys.
- Tile paths: the directory-entry layout uses the dashes of the code (`{z}-{x}-{y}` at lib/index.js:48 and lib/index.js:61), not slash-separated nested paths. The model follows the code.
- Directory contents: `Mfs.ApplyUntouched`, `Mfs.LastWriteWins`, `Mfs.ApplyAgreeing`, `TileDirectory` and `PublishedDirectory` are stated for truncating writes (`Mfs.Apply`), the corrected semantics. For the writes as called (`Mfs.ApplyAsCalled`), the model proves `ApplyAsCalledAgreeing`, `TileDirectoryAsCalled` and `PublishedDirectoryAsCalled`, which cover a first import only. A rerun over files already present is the Findings case.
- Directory creation: `Mfs.Apply` and `Mfs.ApplyAsCalled` model file contents only. Directory creation and MFS metadata are not represented.

## Findings

| source | as written | input that shows it | evidently intended | confidence | as-written member | corrected member |
|---|---|---|---|---|---|---|
| lib/index.js:48 | `ipfs.files.write(path, data, { create: true })` without `truncate: true` overwrites from offset 0 and keeps any longer prior content | re-running into an existing `/tiles-{id}` where a tile file holds `[1, 2, 3]` and the new tile is `[9]`: the file reads `[9, 2, 3]` | each file holds exactly the bytes last written to it | medium, not executed | Mfs.StaleTailAsCalled | Mfs.LastWriteWins |
