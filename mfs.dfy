/**
 * The effect of the MFS writes `addMbtiles` issues. Each call is
 * `ipfs.files.write(path, data, { create: true })`: it creates the file when missing and
 * writes `data` from offset 0. Without `truncate: true` an existing longer file keeps
 * its prior tail; with it the file becomes exactly `data`.
 */
module Mfs {
  type Bytes = seq<bv8>

  /** The contents of the MFS directory tree, file by file. */
  type Directory = map<string, Bytes>

  /** One `ipfs.files.write` call, in the order it is issued. */
  datatype Write = Write(path: string, data: Bytes)

  function Existing(dir: Directory, path: string): Bytes {
    if path in dir then dir[path] else []
  }

  /** Writing `data` at offset 0 over `prior` without truncation. */
  function Overlay(prior: Bytes, data: Bytes): (r: Bytes)
    ensures |r| == if |data| < |prior| then |prior| else |data|
    ensures r[..|data|] == data
    ensures r[|data|..] == if |data| < |prior| then prior[|data|..] else []
  {
    if |data| < |prior| then data + prior[|data|..] else data
  }

  /** The writes applied as the source issues them: `create: true`, no truncation. */
  function ApplyAsCalled(dir: Directory, writes: seq<Write>): Directory
    decreases |writes|
  {
    if writes == [] then dir
    else
      var before := ApplyAsCalled(dir, writes[..|writes| - 1]);
      var w := writes[|writes| - 1];
      before[w.path := Overlay(Existing(before, w.path), w.data)]
  }

  /** The writes applied with truncation: each file ends up holding exactly what was written last. */
  function Apply(dir: Directory, writes: seq<Write>): (r: Directory)
    ensures r.Keys == dir.Keys + set k | 0 <= k < |writes| :: writes[k].path
    decreases |writes|
  {
    if writes == [] then dir
    else
      var before := Apply(dir, writes[..|writes| - 1]);
      var w := writes[|writes| - 1];
      assert forall k :: 0 <= k < |writes| - 1 ==> writes[..|writes| - 1][k] == writes[k];
      before[w.path := w.data]
  }

  /** A file no write touches keeps its contents. */
  lemma {:induction false} ApplyUntouched(dir: Directory, writes: seq<Write>, path: string)
    requires forall k :: 0 <= k < |writes| ==> writes[k].path != path
    requires path in dir
    ensures Apply(dir, writes)[path] == dir[path]
    decreases |writes|
  {
    if writes != [] {
      ApplyUntouched(dir, writes[..|writes| - 1], path);
    }
  }

  /** Last write wins: the file holds the data of the last write to its path. */
  lemma {:induction false} LastWriteWins(dir: Directory, writes: seq<Write>, i: nat)
    requires i < |writes|
    requires forall k :: i < k < |writes| ==> writes[k].path != writes[i].path
    ensures Apply(dir, writes)[writes[i].path] == writes[i].data
    decreases |writes|
  {
    if i < |writes| - 1 {
      LastWriteWins(dir, writes[..|writes| - 1], i);
    }
  }

  /** When every write to a path carries the same data, that is what the file holds. */
  lemma {:induction false} ApplyAgreeing(dir: Directory, writes: seq<Write>, path: string, data: Bytes)
    requires exists k :: 0 <= k < |writes| && writes[k].path == path
    requires forall k :: 0 <= k < |writes| && writes[k].path == path ==> writes[k].data == data
    ensures path in Apply(dir, writes) && Apply(dir, writes)[path] == data
    decreases |writes|
  {
    var last := writes[|writes| - 1];
    if last.path != path {
      var front := writes[..|writes| - 1];
      var k :| 0 <= k < |writes| && writes[k].path == path;
      assert front[k] == writes[k];
      ApplyAgreeing(dir, front, path, data);
    }
  }

  /** As called, on a path the directory did not hold before: when every write to it carries
      the same bytes, the file exists exactly when some write targets it, and holds those bytes. */
  lemma {:induction false} ApplyAsCalledAgreeing(dir: Directory, writes: seq<Write>, path: string, data: Bytes)
    requires path !in dir
    requires forall k :: 0 <= k < |writes| && writes[k].path == path ==> writes[k].data == data
    ensures path in ApplyAsCalled(dir, writes) <==> exists k :: 0 <= k < |writes| && writes[k].path == path
    ensures path in ApplyAsCalled(dir, writes) ==> ApplyAsCalled(dir, writes)[path] == data
    decreases |writes|
  {
    if writes != [] {
      var front := writes[..|writes| - 1];
      assert forall k :: 0 <= k < |front| ==> front[k] == writes[k];
      ApplyAsCalledAgreeing(dir, front, path, data);
      var last := writes[|writes| - 1];
      if last.path != path && exists k :: 0 <= k < |writes| && writes[k].path == path {
        var k :| 0 <= k < |writes| && writes[k].path == path;
        assert front[k].path == path;
      }
    }
  }

  /** As called, a shorter rewrite of an existing file leaves the prior file's tail behind:
      tile bytes [9] written over an earlier [1, 2, 3] read back as [9, 2, 3]. */
  lemma StaleTailAsCalled()
    ensures ApplyAsCalled(map["/tiles-t/0-0-0.png" := [1, 2, 3]], [Write("/tiles-t/0-0-0.png", [9])])["/tiles-t/0-0-0.png"]
         == [9, 2, 3]
    ensures Apply(map["/tiles-t/0-0-0.png" := [1, 2, 3]], [Write("/tiles-t/0-0-0.png", [9])])["/tiles-t/0-0-0.png"]
         == [9]
  {
    var w := [Write("/tiles-t/0-0-0.png", [9])];
    assert w[..0] == [];
  }
}
