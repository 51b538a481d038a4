/** The archive metadata and the command options `addMbtiles` reads, and the checks made on them. */
module Metadata {
  import opened Wrappers
  import opened JsStrings

  /** One entry of the archive's `vector_layers` schema, copied through untouched. */
  datatype VectorLayer = VectorLayer(
    id: string,
    description: Option<string>,
    fields: map<string, string>,
    minzoom: Option<int>,
    maxzoom: Option<int>)

  /** The metadata object `getInfo` yields; every field may be missing. */
  datatype Info = Info(
    scheme: Option<string>,
    id: Option<string>,
    format: Option<string>,
    name: Option<string>,
    description: Option<string>,
    version: Option<string>,
    attribution: Option<string>,
    minzoom: Option<int>,
    maxzoom: Option<int>,
    bounds: Option<seq<real>>,
    center: Option<seq<real>>,
    vectorLayers: Option<seq<VectorLayer>>)

  /** The options object handed to `addMbtiles`; every field may be missing. */
  datatype Opts = Opts(
    id: Option<string>,
    title: Option<string>,
    desc: Option<string>,
    version: Option<string>,
    attribution: Option<string>,
    domain: Option<string>,
    gateway: Option<string>)

  /** The guard `info.scheme && info.scheme !== 'xyz'` fails: only a missing, empty or
      `xyz` scheme is accepted. */
  function SchemeAccepted(scheme: Option<string>): (ok: bool)
    ensures ok <==> scheme == None || scheme == Some("") || scheme == Some("xyz")
  {
    !(Truthy(scheme) && scheme.value != "xyz")
  }

  /** The message of the error thrown for any other scheme. */
  function SchemeError(scheme: Option<string>): string {
    "Only xyz schema is supported, found " + Render(scheme)
  }

  /** `opts.id || info.id`: the option wins when it is non-empty. */
  function TilesetId(opts: Opts, info: Info): (id: Option<string>)
    ensures id == FirstTruthy([opts.id, info.id])
  {
    assert [opts.id, info.id][1..] == [info.id];
    Or(opts.id, info.id)
  }
}
