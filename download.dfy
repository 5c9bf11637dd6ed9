/** downloadFile: stream a GET response into a file, counting the bytes received. */
module Download {
  import opened Common
  import opened Files
  import opened Failures
  import opened Requests

  datatype Completion = Complete | TransportError(reason: string)

  /** What the request emits: its 'data' chunks in order, then 'complete' or 'error'. */
  datatype Response = Response(chunks: seq<seq<byte>>, end: Completion)

  /** A progress line is due once more than this many bytes arrived since the last one. */
  const ProgressInterval := 800000

  /** The chunks written one after the other. */
  function Concat(chunks: seq<seq<byte>>): seq<byte> {
    if chunks == [] then [] else Concat(chunks[..|chunks| - 1]) + chunks[|chunks| - 1]
  }

  function TotalLength(chunks: seq<seq<byte>>): nat {
    if chunks == [] then 0 else TotalLength(chunks[..|chunks| - 1]) + |chunks[|chunks| - 1]|
  }

  /** The `count` and `notifiedCount` variables of downloadFile. */
  datatype Progress = Progress(count: nat, notifiedCount: nat)

  /** The counters after the 'data' handler ran on a chunk of `size` bytes. */
  function Received(before: Progress, size: nat): Progress {
    var count := before.count + size;
    Progress(count, if count - before.notifiedCount > ProgressInterval then count else before.notifiedCount)
  }

  /** The counters after the 'data' handler ran on each chunk in turn. */
  function ProgressAfter(chunks: seq<seq<byte>>): Progress {
    if chunks == [] then Progress(0, 0)
    else Received(ProgressAfter(chunks[..|chunks| - 1]), |chunks[|chunks| - 1]|)
  }

  /** One more chunk: its bytes go at the end and the counters take one handler step. */
  lemma ChunkStep(chunks: seq<seq<byte>>, i: nat)
    requires i < |chunks|
    ensures Concat(chunks[..i + 1]) == Concat(chunks[..i]) + chunks[i]
    ensures ProgressAfter(chunks[..i + 1]) == Received(ProgressAfter(chunks[..i]), |chunks[i]|)
  {
    assert chunks[..i + 1][..i] == chunks[..i];
  }

  lemma {:induction false} ConcatLength(chunks: seq<seq<byte>>)
    ensures |Concat(chunks)| == TotalLength(chunks)
  {
    if chunks != [] {
      ConcatLength(chunks[..|chunks| - 1]);
    }
  }

  /** After any prefix of the response, `count` is the number of bytes received, and the bytes
      not yet reported never exceed the interval. */
  lemma {:induction false} ProgressBounds(chunks: seq<seq<byte>>)
    ensures ProgressAfter(chunks).count == TotalLength(chunks)
    ensures ProgressAfter(chunks).notifiedCount <= ProgressAfter(chunks).count
    ensures ProgressAfter(chunks).count - ProgressAfter(chunks).notifiedCount <= ProgressInterval
  {
    if chunks != [] {
      ProgressBounds(chunks[..|chunks| - 1]);
    }
  }

  /** The file downloadFile leaves and how it settles, for a response to its request. */
  function FileDownload(fs: Entries, dir: string, path: string, response: Response): (Result<(), Failure>, Entries)
  {
    if !CanCreate(fs, dir, path) then (Err(OpenFailed(path)), fs)
    else
      var written := fs[path := File(Truncated(fs, path).mode, Concat(response.chunks))];
      match response.end
      case Complete => (Ok(()), written)
      case TransportError(reason) => (Err(DownloadFailed(reason)), written)
  }

  /** The 'data' handler run on each chunk in turn: each chunk is written at the end of the opened
      file and counted. */
  method WriteChunks(disk: FileSystem, path: string, chunks: seq<seq<byte>>) returns (count: nat, notifiedCount: nat)
    requires path in disk.entries && disk.entries[path].File? && disk.entries[path].contents == []
    modifies disk
    ensures disk.entries == old(disk.entries)[path := File(old(disk.entries)[path].mode, Concat(chunks))]
    ensures Progress(count, notifiedCount) == ProgressAfter(chunks)
  {
    count, notifiedCount := 0, 0;
    var mode := disk.entries[path].mode;
    var i := 0;
    while i < |chunks|
      invariant 0 <= i <= |chunks|
      invariant disk.entries == old(disk.entries)[path := File(mode, Concat(chunks[..i]))]
      invariant Progress(count, notifiedCount) == ProgressAfter(chunks[..i])
    {
      var data := chunks[i];
      disk.Append(path, data);
      count := count + |data|;
      if count - notifiedCount > ProgressInterval {
        notifiedCount := count;
      }
      ChunkStep(chunks, i);
      i := i + 1;
    }
    assert chunks[..i] == chunks;
  }

  /** downloadFile(url, path), with the request answered by `fetch`: every chunk is written as it
      arrives, and whatever arrived before an error stays in the file. */
  method DownloadFile(disk: FileSystem, url: string, env: map<string, string>, fetch: RequestOptions -> Response,
                      dir: string, path: string)
    returns (r: Result<(), Failure>, count: nat, notifiedCount: nat)
    modifies disk
    ensures (r, disk.entries) == FileDownload(old(disk.entries), dir, path, fetch(PrepareHttpGetRequest(url, env)))
    ensures CanCreate(old(disk.entries), dir, path) ==>
              Progress(count, notifiedCount) == ProgressAfter(fetch(PrepareHttpGetRequest(url, env)).chunks)
  {
    var options := PrepareHttpGetRequest(url, env);
    var created := disk.OpenForWrite(dir, path);
    if !created {
      return Err(OpenFailed(path)), 0, 0;
    }
    assert disk.entries[path] == Truncated(old(disk.entries), path);
    var response := fetch(options);
    count, notifiedCount := WriteChunks(disk, path, response.chunks);
    assert disk.entries == old(disk.entries)[path := File(Truncated(old(disk.entries), path).mode, Concat(response.chunks))];
    match response.end
    case Complete => r := Ok(());
    case TransportError(reason) => r := Err(DownloadFailed(reason));
  }
}
