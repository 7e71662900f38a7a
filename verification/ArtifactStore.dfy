/** The artifact tree: a file appears whole or not at all, is created at most
    once unless overwriting is asked for, and identical content may be put again. */
module ArtifactStore {
  import opened Wrappers
  import Utf8

  type Bytes = seq<Utf8.Byte>

  datatype PutError = BadChunkSize | BlankMediaType | TooLarge | Conflict

  /** Digests are injective, so the content stands for its digest. */
  datatype Metadata = Metadata(path: string, content: Bytes, size: nat)

  /** What a stream delivers: its reads up to the first empty one. */
  function Delivered(pieces: seq<Bytes>): Bytes {
    if pieces == [] || pieces[0] == [] then [] else pieces[0] + Delivered(pieces[1..])
  }

  predicate Exceeds(limit: Option<nat>, size: int) {
    limit.Some? && size > limit.value
  }

  /** The outcome of putting `content`, as a whole, at a path. */
  function Verdict(files: map<string, Bytes>, limit: Option<nat>, path: string, content: Bytes, overwrite: bool)
    : Result<Metadata, PutError>
  {
    if Exceeds(limit, |content|) then Err(TooLarge)
    else if !overwrite && path in files && files[path] != content then Err(Conflict)
    else Ok(Metadata(path, content, |content|))
  }

  class AtomicArtifactStore {
    var files: map<string, Bytes>
    const maxArtifactBytes: Option<nat>

    constructor (maxArtifactBytes: Option<nat>)
      ensures files == map[] && this.maxArtifactBytes == maxArtifactBytes
    {
      files := map[];
      this.maxArtifactBytes := maxArtifactBytes;
    }

    /** Reads the stream into a temporary file and then links or moves it into
        place; nothing is visible at the path before that. */
    method PutStream(path: string, stream: seq<Bytes>, mediaTypeIsBlank: bool, overwrite: bool, chunkSize: int)
      returns (r: Result<Metadata, PutError>)
      modifies this
      ensures chunkSize < 1 ==> r == Err(BadChunkSize)
      ensures chunkSize >= 1 && mediaTypeIsBlank ==> r == Err(BlankMediaType)
      ensures chunkSize >= 1 && !mediaTypeIsBlank ==>
                r == Verdict(old(files), maxArtifactBytes, path, Delivered(stream), overwrite)
      ensures r.Err? ==> files == old(files)
      ensures r.Ok? ==> files == old(files)[path := Delivered(stream)]
    {
      if chunkSize < 1 {
        return Err(BadChunkSize);
      }
      if mediaTypeIsBlank {
        return Err(BlankMediaType);
      }
      var temporary: Bytes, size, next := [], 0, 0;
      while next < |stream| && stream[next] != []
        invariant 0 <= next <= |stream| && size == |temporary|
        invariant Delivered(stream) == temporary + Delivered(stream[next..])
        invariant !Exceeds(maxArtifactBytes, size)
      {
        var chunk := stream[next];
        assert stream[next..][1..] == stream[next + 1..];
        assert temporary + (chunk + Delivered(stream[next + 1..])) == temporary + chunk + Delivered(stream[next + 1..]);
        size := size + |chunk|;
        if Exceeds(maxArtifactBytes, size) {
          return Err(TooLarge);
        }
        temporary := temporary + chunk;
        next := next + 1;
      }
      assert temporary == Delivered(stream);
      if overwrite {
        files := files[path := temporary];
      } else if path !in files {
        files := files[path := temporary];
      } else {
        if files[path] != temporary || |files[path]| != size {
          return Err(Conflict);
        }
        assert files == files[path := temporary];
      }
      return Ok(Metadata(path, temporary, size));
    }
  }

  // ---------- committed files never change ----------

  datatype Put = Put(path: string, content: Bytes)

  /** A later put that does not overwrite. */
  function AfterPut(files: map<string, Bytes>, limit: Option<nat>, p: Put): map<string, Bytes> {
    if Verdict(files, limit, p.path, p.content, false).Ok? then files[p.path := p.content] else files
  }

  function AfterPuts(files: map<string, Bytes>, limit: Option<nat>, puts: seq<Put>): map<string, Bytes>
    decreases |puts|
  {
    if puts == [] then files else AfterPuts(AfterPut(files, limit, puts[0]), limit, puts[1..])
  }

  /** Once committed, a file keeps its content through any puts that do not
      overwrite; putting the same content again succeeds and changes nothing, and
      putting other content there is refused. */
  lemma {:induction false} CommittedFilesAreImmutable(files: map<string, Bytes>, limit: Option<nat>, puts: seq<Put>,
                                                      path: string, other: Bytes)
    requires path in files && !Exceeds(limit, |files[path]|)
    ensures var later := AfterPuts(files, limit, puts);
            && path in later && later[path] == files[path]
            && Verdict(later, limit, path, files[path], false).Ok?
            && AfterPut(later, limit, Put(path, files[path])) == later
            && (other != files[path] ==> Verdict(later, limit, path, other, false).Err?)
    decreases |puts|
  {
    if puts != [] {
      CommittedFilesAreImmutable(AfterPut(files, limit, puts[0]), limit, puts[1..], path, other);
    }
  }
}
