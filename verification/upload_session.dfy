/** The front-end half of the upload (`FileWidget`'s chunk reader) as an oracle over
    the contents of the selected files, and the end-to-end behaviour of a session:
    every accepted file is copied byte for byte, one file after another. */
module UploadSession {
  import opened Wrappers
  import opened Upload

  /** The front end reads `64 * 1024` bytes per request. */
  const ChunkSize: nat := 64 * 1024

  /** The reply to the request `[index, offset]`: `file.slice(offset, offset + ChunkSize)`
      of the stored file, which is empty once the offset reaches the end. */
  function Chunk(src: seq<byte>, offset: nat): (c: seq<byte>)
    ensures |c| <= ChunkSize
    ensures c == [] <==> offset >= |src|
    ensures offset + ChunkSize <= |src| ==> |c| == ChunkSize
    ensures offset <= |src| ==> offset + |c| <= |src| && src[..offset] + c == src[..offset + |c|]
  {
    if offset >= |src| then []
    else src[offset .. if offset + ChunkSize < |src| then offset + ChunkSize else |src|]
  }

  /** No later file of the session (up to the one currently open) writes to the same
      path as file `k`, so what file `k` wrote is what stays on disk. */
  ghost predicate Final(up: FileUpload, k: int)
    reads up
    requires 0 <= k && up.fnum < |up.fnames|
  {
    forall j :: k < j <= up.fnum ==> up.fnames[j] != up.fnames[k]
  }

  /** How many files of the session are complete. */
  ghost function Completed(up: FileUpload): int
    reads up
  {
    if up.phase == Done then |up.fnames| else up.fnum
  }

  /** The disk mirrors the sources `srcs` (indexed by selection index): the open file
      holds the first `fcnt` bytes of its source and never more than the whole file,
      and every completed file that no later file overwrote equals its source. */
  ghost predicate Mirrors(up: FileUpload, srcs: seq<seq<byte>>)
    reads up
    requires up.Valid()
  {
    up.phase != Idle ==>
      && (forall k :: 0 <= k < |up.fnames| ==> up.nums[k] < |srcs|)
      && (up.phase == Awaiting ==>
            && up.fcnt <= |srcs[up.nums[up.fnum]]|
            && up.files[up.fnames[up.fnum]] == srcs[up.nums[up.fnum]][..up.fcnt])
      && (forall k :: 0 <= k < Completed(up) && Final(up, k) ==>
            up.fnames[k] in up.files && up.files[up.fnames[k]] == srcs[up.nums[k]])
  }

  /** One round trip: the front end answers the outstanding request with the chunk of
      the stored file at the requested offset (announcing `sent = -1` first when the
      offset is 0), and the sequencer processes it. Either the file grows, or the next
      file starts, or the session is done; a file is never revisited. */
  method Deliver(up: FileUpload, srcs: seq<seq<byte>>)
    requires up.Valid() && up.phase == Awaiting && Mirrors(up, srcs)
    modifies up
    ensures up.Valid() && Mirrors(up, srcs) && (up.phase == Awaiting || up.phase == Done)
    ensures up.fnames == old(up.fnames) && up.nums == old(up.nums) && up.fnum >= old(up.fnum)
    ensures up.phase == Awaiting ==>
              up.fnum > old(up.fnum) || (up.fnum == old(up.fnum) && up.fcnt > old(up.fcnt))
    ensures up.fnum == old(up.fnum) ==> Left(up, srcs) < old(Left(up, srcs))
    ensures up.phase == Awaiting ==> up.callbacks == old(up.callbacks)
    ensures up.phase == Done ==>
              up.callbacks == old(up.callbacks) + (if up.hasCallback then [up.fnames] else [])
  {
    var (index, offset) := up.send;
    var src := srcs[index];
    if offset == 0 {
      up.DataReceived(-1, []);
    }
    var chunk := Chunk(src, offset);
    ghost var n := up.fnum;
    ghost var path := up.fnames[n];
    ghost var before := up.files;
    up.DataReceived(offset, chunk);
    if chunk == [] {
      assert offset == |src| && before[path] == src;
      if up.phase == Done {
        assert Completed(up) == n + 1;
      } else {
        assert forall k :: 0 <= k < n && Final(up, k) ==> up.fnames[k] != up.fnames[up.fnum];
      }
    } else {
      assert up.files[path] == src[..up.fcnt];
      assert forall k :: 0 <= k < n && Final(up, k) ==> up.fnames[k] != path;
    }
  }

  /** How much is left of the file being received, plus one for its end-of-file reply. */
  ghost function Left(up: FileUpload, srcs: seq<seq<byte>>): nat
    reads up
  {
    if up.phase == Awaiting && 0 <= up.fnum < |up.nums| && up.nums[up.fnum] < |srcs|
       && up.fcnt <= |srcs[up.nums[up.fnum]]|
    then |srcs[up.nums[up.fnum]]| - up.fcnt + 1
    else 0
  }

  /** Answer requests until the session stops asking: it ends with every file
      received, each bar marked success in order, and the completion callback called
      once with all output paths. */
  method Transfer(up: FileUpload, srcs: seq<seq<byte>>)
    requires up.Valid() && up.phase == Awaiting && Mirrors(up, srcs)
    modifies up
    ensures up.Valid() && up.phase == Done && Mirrors(up, srcs)
    ensures up.fnames == old(up.fnames) && up.nums == old(up.nums)
    ensures forall k :: 0 <= k < |up.fnames| && Final(up, k) ==>
                 up.fnames[k] in up.files && up.files[up.fnames[k]] == srcs[up.nums[k]]
    ensures forall k :: 0 <= k < |up.fnames| ==> up.prog.value[k].style == Succeeded
    ensures up.callbacks == old(up.callbacks) + (if up.hasCallback then [up.fnames] else [])
  {
    while up.phase == Awaiting
      invariant up.Valid() && Mirrors(up, srcs) && (up.phase == Awaiting || up.phase == Done)
      invariant up.fnames == old(up.fnames) && up.nums == old(up.nums)
      invariant up.phase == Awaiting ==> up.callbacks == old(up.callbacks)
      invariant up.phase == Done ==>
                  up.callbacks == old(up.callbacks) + (if up.hasCallback then [up.fnames] else [])
      decreases |up.fnames| - up.fnum, Left(up, srcs)
    {
      Deliver(up, srcs);
    }
  }

  /** A whole session: the user selects files whose contents are `srcs` (the browser
      reports them in selection order); when the selection starts a transfer and the
      front end answers every request, every accepted file ends up on disk equal to
      its source. */
  method RunSession(up: FileUpload, selection: seq<Selected>, srcs: seq<seq<byte>>)
    returns (outcome: Outcome)
    requires up.Valid() && |srcs| == |selection|
    modifies up
    ensures up.Valid()
    ensures outcome == Started ==>
              && up.phase == Done
              && up.nums == Accepted(selection, up.maxsize)
              && |up.fnames| > 0
              && (forall k :: 0 <= k < |up.fnames| && Final(up, k) ==>
                 up.fnames[k] in up.files && up.files[up.fnames[k]] == srcs[up.nums[k]])
              && (forall k :: 0 <= k < |up.fnames| ==> up.prog.value[k].style == Succeeded)
              && up.callbacks == old(up.callbacks) + (if up.hasCallback then [up.fnames] else [])
    ensures outcome != Started ==> up.phase == Idle || up.phase == old(up.phase)
  {
    outcome := up.FilenamesReceived(selection);
    if outcome == Started {
      assert up.files[up.fnames[0]] == srcs[up.nums[0]][..0];
      Transfer(up, srcs);
    }
  }
}
