/** Binary-safe export of a file in chunks, with a digest fed only by chunks read in order. */
module FileExport {
  import opened Wrappers

  const SESSION_TTL_SECONDS := 3600

  type Byte = char

  // ---------- chunk arithmetic ----------

  function Min(a: nat, b: nat): nat {
    if a < b then a else b
  }

  /** At least one chunk: an empty file is exported as one empty chunk. */
  function ChunkCount(size: nat, chunk: nat): (n: nat)
    requires chunk > 0
    ensures n >= 1
  {
    var n := (size + chunk - 1) / chunk;
    if n == 0 then 1 else n
  }

  /** Where a chunk starts, as far as the file goes. */
  function Offset(size: nat, index: nat, chunk: nat): (at: nat)
    ensures at <= size
  {
    if index == 0 then 0 else Min(size, Offset(size, index - 1, chunk) + chunk)
  }

  function ChunkAt(source: seq<Byte>, index: nat, chunk: nat): seq<Byte> {
    source[Offset(|source|, index, chunk)..Offset(|source|, index + 1, chunk)]
  }

  lemma OffsetIs(size: nat, index: nat, chunk: nat)
    ensures Offset(size, index, chunk) == Min(size, index * chunk)
  {
    if index > 0 {
      OffsetIs(size, index - 1, chunk);
      assert index * chunk == (index - 1) * chunk + chunk;
    }
  }

  /** Seek, then read up to `count` bytes. */
  function ReadAt(contents: seq<Byte>, at: nat, count: nat): seq<Byte> {
    contents[Min(|contents|, at)..Min(|contents|, at + count)]
  }

  lemma ChunkIsRead(source: seq<Byte>, index: nat, chunk: nat)
    ensures ChunkAt(source, index, chunk) == ReadAt(source, index * chunk, chunk)
  {
    OffsetIs(|source|, index, chunk);
    OffsetIs(|source|, index + 1, chunk);
    assert (index + 1) * chunk == index * chunk + chunk;
  }

  function FirstChunks(source: seq<Byte>, n: nat, chunk: nat): seq<Byte> {
    if n == 0 then [] else FirstChunks(source, n - 1, chunk) + ChunkAt(source, n - 1, chunk)
  }

  /** The chunks cover the size, and no fewer would. */
  lemma ChunksCover(size: nat, chunk: nat)
    requires chunk > 0
    ensures size <= ChunkCount(size, chunk) * chunk
    ensures size > 0 ==> (ChunkCount(size, chunk) - 1) * chunk < size
  {
    var t := size + chunk - 1;
    assert t == t / chunk * chunk + t % chunk;
    if size > 0 {
      assert t / chunk >= 1;
      assert (t / chunk - 1) * chunk == t / chunk * chunk - chunk;
    }
  }

  lemma {:induction false} FirstChunksArePrefix(source: seq<Byte>, n: nat, chunk: nat)
    ensures FirstChunks(source, n, chunk) == source[..Offset(|source|, n, chunk)]
  {
    if n > 0 {
      FirstChunksArePrefix(source, n - 1, chunk);
    }
  }

  /** All chunks, concatenated, are the file, the empty one included. */
  lemma ChunksAreTheFile(source: seq<Byte>, chunk: nat)
    requires chunk > 0
    ensures FirstChunks(source, ChunkCount(|source|, chunk), chunk) == source
  {
    FirstChunksArePrefix(source, ChunkCount(|source|, chunk), chunk);
    OffsetIs(|source|, ChunkCount(|source|, chunk), chunk);
    ChunksCover(|source|, chunk);
  }

  // ---------- which requests complete an export ----------

  /** The next chunk the digest waits for, after some requests. */
  function Progress(requests: seq<int>): nat {
    if requests == [] then 0
    else
      var next := Progress(requests[..|requests| - 1]);
      if requests[|requests| - 1] == next then next + 1 else next
  }

  lemma ProgressStep(requests: seq<int>, more: int)
    ensures Progress(requests + [more]) == Progress(requests) + (if more == Progress(requests) then 1 else 0)
  {
    assert (requests + [more])[..|requests|] == requests;
  }

  /** Chunks 0 to k - 1 were asked for one after the other, whatever came between. */
  ghost predicate AskedInOrder(requests: seq<int>, k: nat)
    decreases k
  {
    k == 0 || exists p | 0 <= p < |requests| :: requests[p] == k - 1 && AskedInOrder(requests[..p], k - 1)
  }

  lemma AskedInOrderGrows(requests: seq<int>, more: int, k: nat)
    requires AskedInOrder(requests, k)
    ensures AskedInOrder(requests + [more], k)
  {
    if k > 0 {
      var p :| 0 <= p < |requests| && requests[p] == k - 1 && AskedInOrder(requests[..p], k - 1);
      assert (requests + [more])[..p] == requests[..p] && (requests + [more])[p] == k - 1;
    }
  }

  lemma {:induction false} ProgressAtLeast(requests: seq<int>, k: nat)
    requires AskedInOrder(requests, k)
    ensures Progress(requests) >= k
    decreases |requests|
  {
    if k > 0 {
      var p :| 0 <= p < |requests| && requests[p] == k - 1 && AskedInOrder(requests[..p], k - 1);
      var front := requests[..|requests| - 1];
      if p < |front| {
        assert front[..p] == requests[..p] && front[p] == k - 1;
        assert AskedInOrder(front, k);
        ProgressAtLeast(front, k);
      } else {
        ProgressAtLeast(front, k - 1);
      }
    }
  }

  lemma {:induction false} ProgressWasAsked(requests: seq<int>)
    ensures AskedInOrder(requests, Progress(requests))
    decreases |requests|
  {
    if requests != [] {
      var front := requests[..|requests| - 1];
      ProgressWasAsked(front);
      assert requests == front + [requests[|requests| - 1]];
      if requests[|requests| - 1] == Progress(front) {
        assert requests[..|front|] == front;
      } else {
        AskedInOrderGrows(front, requests[|requests| - 1], Progress(front));
      }
    }
  }

  /** The digest has got exactly as far as the requests contain the chunk numbers in order. */
  lemma ProgressIsOrder(requests: seq<int>, k: nat)
    ensures Progress(requests) >= k <==> AskedInOrder(requests, k)
  {
    if Progress(requests) >= k {
      ProgressWasAsked(requests);
      FewerInOrder(requests, k, Progress(requests));
    }
    if AskedInOrder(requests, k) { ProgressAtLeast(requests, k); }
  }

  lemma {:induction false} FewerInOrder(requests: seq<int>, k: nat, n: nat)
    requires k <= n && AskedInOrder(requests, n)
    ensures AskedInOrder(requests, k)
    decreases n
  {
    if k < n {
      var p :| 0 <= p < |requests| && requests[p] == n - 1 && AskedInOrder(requests[..p], n - 1);
      InOrderOfPrefix(requests, p, n - 1);
      FewerInOrder(requests, k, n - 1);
    }
  }

  lemma InOrderOfPrefix(requests: seq<int>, p: nat, k: nat)
    requires p <= |requests| && AskedInOrder(requests[..p], k)
    ensures AskedInOrder(requests, k)
  {
    if k > 0 {
      var q :| 0 <= q < p && requests[..p][q] == k - 1 && AskedInOrder(requests[..p][..q], k - 1);
      assert requests[..p][..q] == requests[..q];
    }
  }

  // ---------- sessions ----------

  /** How far a digest has got: it waits for the next chunk in order, and while every read saw the file as
      it was measured it has consumed exactly the chunks before that one. */
  ghost predicate Fed(source: seq<Byte>, chunk: nat, hasher: seq<Byte>, next: nat, asked: seq<int>, pristine: bool) {
    next == Progress(asked) && (pristine ==> hasher == FirstChunks(source, next, chunk))
  }

  lemma FeedKeeps(source: seq<Byte>, chunk: nat, hasher: seq<Byte>, next: nat, asked: seq<int>, pristine: bool,
                  index: nat, contents: seq<Byte>)
    requires Fed(source, chunk, hasher, next, asked, pristine)
    ensures var still := pristine && contents == source;
            if index == next
            then Fed(source, chunk, hasher + ChunkAt(contents, index, chunk), next + 1, asked + [index], still)
            else Fed(source, chunk, hasher, next, asked + [index], still)
  {
    ProgressStep(asked, index);
  }

  datatype Error = NotFound | InvalidPayload | PathNotAllowed

  datatype Opened = Opened(filename: string, size: nat, chunkSize: nat, numChunks: nat)

  datatype Chunk = Chunk(data: seq<Byte>, eof: bool)

  /** `sha256` stands for the digest of the bytes it holds. */
  datatype Receipt = Receipt(size: nat, chunksRead: nat, numChunks: nat, sha256: Option<seq<Byte>>, complete: bool)

  class ExportSession {
    const path: string
    const size: nat
    const chunkSize: nat
    const numChunks: nat
    const createdAt: int
    var hasher: seq<Byte>
    var nextIndex: nat
    /** The file as it was measured, the chunks asked for so far, and whether every read saw that file. */
    ghost const source: seq<Byte>
    ghost var asked: seq<int>
    ghost var pristine: bool

    ghost predicate Valid()
      reads this
    {
      && chunkSize > 0 && size == |source| && numChunks == ChunkCount(size, chunkSize)
      && nextIndex <= numChunks && Fed(source, chunkSize, hasher, nextIndex, asked, pristine)
    }

    constructor (path: string, source: seq<Byte>, chunkSize: nat, now: int)
      requires chunkSize > 0
      ensures Valid() && pristine && asked == [] && this.source == source
      ensures this.path == path && this.chunkSize == chunkSize && createdAt == now
    {
      this.path, this.source, this.chunkSize, createdAt := path, source, chunkSize, now;
      size, numChunks := |source|, ChunkCount(|source|, chunkSize);
      hasher, nextIndex, asked, pristine := [], 0, [], true;
    }

    /** Read one chunk of the file as it is now; the digest takes it only when it is the next one. */
    method ReadAndHash(index: nat, contents: seq<Byte>) returns (data: seq<Byte>, eof: bool)
      requires Valid() && index < numChunks
      modifies this
      ensures Valid() && asked == old(asked) + [index]
      ensures pristine == (old(pristine) && contents == source)
      ensures data == ChunkAt(contents, index, chunkSize)
      ensures eof <==> index == numChunks - 1
    {
      FeedKeeps(source, chunkSize, hasher, nextIndex, asked, pristine, index, contents);
      data := ReadAt(contents, index * chunkSize, chunkSize);
      ChunkIsRead(contents, index, chunkSize);
      if index == nextIndex {
        hasher := hasher + data;
        nextIndex := nextIndex + 1;
      }
      asked := asked + [index];
      pristine := pristine && contents == source;
      eof := index + 1 >= numChunks;
    }

    /** What the digest has consumed, as bytes of the file. */
    lemma ConsumedPrefix()
      requires Valid() && pristine
      ensures hasher == source[..Min(size, nextIndex * chunkSize)]
      ensures nextIndex == numChunks ==> hasher == source
    {
      FirstChunksArePrefix(source, nextIndex, chunkSize);
      OffsetIs(size, nextIndex, chunkSize);
      ChunksAreTheFile(source, chunkSize);
    }
  }

  class Exporter {
    /** The largest chunk of the transfer protocol. */
    const transferChunkBytes: nat
    /** The disk, which others may change between calls. */
    var files: map<string, seq<Byte>>
    var sessions: map<string, ExportSession>

    ghost predicate Valid()
      reads this, sessions.Values
    {
      && transferChunkBytes > 0
      && (forall id | id in sessions :: sessions[id].Valid())
      && (forall a, b | a in sessions && b in sessions && sessions[a] == sessions[b] :: a == b)
    }

    constructor (files: map<string, seq<Byte>>, transferChunkBytes: nat)
      requires transferChunkBytes > 0
      ensures Valid() && sessions == map[]
    {
      this.files, this.transferChunkBytes, sessions := files, transferChunkBytes, map[];
    }

    /** An out-of-range chunk size falls back to the protocol's own. */
    function Effective(chunkSize: Option<int>): (n: nat)
      requires transferChunkBytes > 0
      ensures 0 < n <= transferChunkBytes
      ensures chunkSize.Some? && 1 <= chunkSize.value <= transferChunkBytes ==> Some(n as int) == chunkSize
      ensures chunkSize.None? || chunkSize.value < 1 || chunkSize.value > transferChunkBytes ==> n == transferChunkBytes
    {
      if chunkSize.Some? && 0 < chunkSize.value <= transferChunkBytes then chunkSize.value else transferChunkBytes
    }

    /** Open a transfer; older sessions that outlived their time, and a previous one of this transfer, go. */
    method Init(id: string, path: Option<string>, chunkSize: Option<int>, now: int) returns (r: Result<Opened, Error>)
      requires Valid()
      modifies this`sessions
      ensures Valid()
      ensures r.Err? ==> sessions == old(sessions)
      ensures r == if path.None? then Err(PathNotAllowed)
                   else if path.value !in files then Err(NotFound)
                   else var n := |files[path.value]|;
                        Ok(Opened(path.value, n, Effective(chunkSize), ChunkCount(n, Effective(chunkSize))))
      ensures r.Ok? ==>
                && id in sessions && fresh(sessions[id])
                && sessions[id].source == files[path.value] && sessions[id].pristine && sessions[id].asked == []
                && sessions[id].path == path.value && sessions[id].createdAt == now
                && sessions[id].chunkSize == Effective(chunkSize)
      ensures r.Ok? ==> forall other | other != id ::
                (other in sessions <==> other in old(sessions)
                                        && now - old(sessions)[other].createdAt <= SESSION_TTL_SECONDS)
                && (other in sessions ==> sessions[other] == old(sessions)[other])
    {
      if path.None? { return Err(PathNotAllowed); }
      if path.value !in files { return Err(NotFound); }
      var session := new ExportSession(path.value, files[path.value], Effective(chunkSize), now);
      sessions := map other | other in sessions && !(now - sessions[other].createdAt > SESSION_TTL_SECONDS)
                  :: sessions[other];
      sessions := sessions[id := session];
      r := Ok(Opened(path.value, session.size, session.chunkSize, session.numChunks));
    }

    /** Serve one chunk, in any order and as often as asked. */
    method ReadChunk(id: string, index: int) returns (r: Result<Chunk, Error>)
      requires Valid()
      modifies sessions.Values
      ensures Valid() && sessions == old(sessions)
      ensures r.Err? ==> forall k | k in sessions :: unchanged(sessions[k])
      ensures forall k | k in sessions && k != id :: unchanged(sessions[k])
      ensures r.Err? <==> id !in sessions || !(0 <= index < sessions[id].numChunks) || sessions[id].path !in files
      ensures r.Err? ==> r.error == if id in sessions && !(0 <= index < sessions[id].numChunks)
                                    then InvalidPayload else NotFound
      ensures r.Ok? ==>
                var s := sessions[id];
                && r.value == Chunk(ChunkAt(files[s.path], index, s.chunkSize), index == s.numChunks - 1)
                && s.asked == old(s.asked) + [index]
                && s.pristine == (old(s.pristine) && files[s.path] == s.source)
    {
      if id !in sessions { return Err(NotFound); }
      var session := sessions[id];
      if !(0 <= index < session.numChunks) { return Err(InvalidPayload); }
      if session.path !in files { return Err(NotFound); }
      var data, eof := session.ReadAndHash(index, files[session.path]);
      r := Ok(Chunk(data, eof));
    }

    /** Close a transfer. A digest is reported exactly when chunks 0 to n - 1 were asked for in order, and
        it is then the digest of the whole file, provided every read saw the file as measured. */
    method Complete(id: string) returns (r: Result<Receipt, Error>)
      requires Valid()
      modifies this`sessions
      ensures Valid() && sessions == old(sessions) - {id}
      ensures r.Err? <==> id !in old(sessions)
      ensures r.Ok? ==>
                var s := old(sessions)[id];
                && r.value.size == s.size && r.value.numChunks == s.numChunks
                && r.value.chunksRead == Progress(s.asked)
                && (r.value.complete <==> AskedInOrder(s.asked, s.numChunks))
                && (r.value.sha256.Some? <==> r.value.complete)
                && (r.value.complete && s.pristine ==> r.value.sha256 == Some(s.source))
    {
      if id !in sessions { return Err(NotFound); }
      var s := sessions[id];
      sessions := sessions - {id};
      var inOrder := s.nextIndex == s.numChunks;
      ProgressIsOrder(s.asked, s.numChunks);
      if s.pristine { s.ConsumedPrefix(); }
      r := Ok(Receipt(s.size, s.nextIndex, s.numChunks, if inOrder then Some(s.hasher) else None, inOrder));
    }
  }
}
