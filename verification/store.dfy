/**
 * The cache directory as the handler sees it through `fs.promises`
 * (index.js:53, 65, 85, 103): a map from file name to contents. Each call
 * takes a `fault` flag standing for a storage fault of the host (disk full,
 * permission denied); a missing file is reported as ENOENT.
 */
module Store {
  import opened Wrappers

  type Byte = bv8
  type Blob = seq<Byte>

  /** File name -> file contents. */
  type Dir = map<string, Blob>

  /** The error codes the handler can observe: no such file, or anything else. */
  datatype FsError = ENOENT | EIO

  datatype FsResult<+T> = Ok(value: T) | Err(code: FsError)

  /** `fs.readFile(name)`. */
  function ReadFile(dir: Dir, name: string, fault: bool): (r: FsResult<Blob>)
    ensures r.Ok? <==> !fault && name in dir
    ensures r.Ok? ==> r.value == dir[name]
    ensures r.Err? && !fault ==> r.code == ENOENT
  {
    if fault then Err(EIO)
    else if name in dir then Ok(dir[name])
    else Err(ENOENT)
  }

  /** `fs.writeFile(name, data)`: creates or replaces the whole file, or fails and changes nothing. */
  function WriteFile(dir: Dir, name: string, data: Blob, fault: bool): (r: (FsResult<()>, Dir))
    ensures r.0.Ok? <==> !fault
    ensures r.0.Ok? ==> Get(r.1, name) == Some(data)
    ensures r.0.Err? ==> r.1 == dir
    ensures forall n :: n != name ==> Get(r.1, n) == Get(dir, n)
  {
    if fault then (Err(EIO), dir) else (Ok(()), dir[name := data])
  }

  /** `fs.unlink(name)`. */
  function Unlink(dir: Dir, name: string, fault: bool): (r: (FsResult<()>, Dir))
    ensures r.0.Ok? <==> !fault && name in dir
    ensures r.0 == Err(ENOENT) <==> !fault && name !in dir
    ensures !fault ==> name !in r.1
    ensures r.0.Err? ==> r.1 == dir
    ensures forall n :: n != name ==> Get(r.1, n) == Get(dir, n)
  {
    if fault then (Err(EIO), dir)
    else if name in dir then (Ok(()), dir - {name})
    else (Err(ENOENT), dir)
  }

  /** A successful write is seen in full by the next read of the same file. */
  lemma WriteThenRead(dir: Dir, name: string, data: Blob)
    ensures ReadFile(WriteFile(dir, name, data, false).1, name, false) == Ok(data)
  {
  }

  /** `Buffer.concat(chunks)`. */
  function Concat(chunks: seq<Blob>): Blob {
    if chunks == [] then [] else chunks[0] + Concat(chunks[1..])
  }

  /** The total number of bytes in `chunks`. */
  function TotalLength(chunks: seq<Blob>): nat {
    if chunks == [] then 0 else |chunks[0]| + TotalLength(chunks[1..])
  }

  /**
   * Pushing each incoming chunk and concatenating at the end gives the same
   * bytes as appending each chunk to the body as it arrives.
   */
  lemma {:induction false} ConcatPush(chunks: seq<Blob>, chunk: Blob)
    ensures Concat(chunks + [chunk]) == Concat(chunks) + chunk
    decreases |chunks|
  {
    if chunks != [] {
      assert (chunks + [chunk])[1..] == chunks[1..] + [chunk];
      ConcatPush(chunks[1..], chunk);
    }
  }

  /** No byte is lost or invented: the body is as long as its chunks together. */
  lemma {:induction false} ConcatLength(chunks: seq<Blob>)
    ensures |Concat(chunks)| == TotalLength(chunks)
    decreases |chunks|
  {
    if chunks != [] {
      ConcatLength(chunks[1..]);
    }
  }
}
