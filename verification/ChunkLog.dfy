/**
 The chunk log of lab3/src/chunk/chunk.c in memory, what a connection gets from it, and how the cache file is
 written from it and read back (lab3/src/chunk/cache.c).
 */
module ChunkLog {
  import opened Options
  import opened Broadcast
  import opened Connection
  import opened SubscriberList

  class Chunk {
    const index: nat
    const data: seq<Byte>
    var next: Chunk?
    var prev: Chunk?

    constructor (index: nat, data: seq<Byte>)
      ensures this.index == index && this.data == data && next == null && prev == null
    {
      this.index, this.data := index, data;
      next, prev := null, null;
    }
  }

  class Container {
    var first: Chunk?
    var last: Chunk?
    var count: nat
    ghost var chunks: seq<Chunk>

    ghost predicate Valid()
      reads this, chunks
    {
      && count == |chunks|
      && (forall i :: 0 <= i < |chunks| ==> chunks[i].index == i)
      && (forall i {:trigger chunks[i].next} :: 0 <= i < |chunks| ==>
          chunks[i].next == if i + 1 < |chunks| then chunks[i + 1] else null)
      && (forall i {:trigger chunks[i].prev} :: 0 <= i < |chunks| ==>
          chunks[i].prev == if i > 0 then chunks[i - 1] else null)
      && first == (if chunks == [] then null else chunks[0])
      && last == (if chunks == [] then null else chunks[|chunks| - 1])
    }

    ghost function Contents(): (c: seq<seq<Byte>>)
      reads `chunks
      ensures |c| == |chunks| && forall i :: 0 <= i < |c| ==> c[i] == chunks[i].data
    {
      var cs := chunks;
      seq(|cs|, i requires 0 <= i < |cs| => cs[i].data)
    }

    constructor ()
      ensures Valid() && Contents() == [] && chunks == []
    {
      first, last, count, chunks := null, null, 0, [];
    }

    lemma NextOf(i: nat)
      requires Valid() && i < |chunks|
      ensures chunks[i].next == if i + 1 < |chunks| then chunks[i + 1] else null
      ensures count == |chunks|
    {
    }

    lemma Size()
      requires Valid()
      ensures count == |chunks|
    {
    }

    lemma LastIn()
      requires Valid()
      ensures last != null ==> last in chunks
    {
    }

    /** __add_chunk: copies elementSize * size bytes, unless there is nothing to copy. */
    method AddChunk(data: Option<seq<Byte>>, elementSize: nat, size: nat)
      requires Valid() && (data.Some? ==> elementSize * size <= |data.value|)
      modifies this, if last == null then {} else {last}
      ensures Valid() && |chunks| >= old(|chunks|) && chunks[..old(|chunks|)] == old(chunks)
      ensures fresh(chunks[old(|chunks|)..])
      ensures Contents() ==
        old(Contents()) + if size > 0 && data.Some? then [data.value[..elementSize * size]] else []
    {
      if size == 0 || data.None? {
        return;
      }
      var chunk := new Chunk(if last != null then last.index + 1 else 0, data.value[..elementSize * size]);
      if last != null {
        last.next := chunk;
      } else {
        first := chunk;
      }
      chunk.prev := last;
      last := chunk;
      count := count + 1;
      chunks := chunks + [chunk];
    }

    /** get_chunk: walks from the nearer end to the chunk at this place in the list. */
    method GetChunk(index: nat) returns (chunk: Chunk?)
      requires Valid()
      ensures chunk == if index < |chunks| then chunks[index] else null
    {
      if index >= count {
        return null;
      }
      var forward := index < count / 2;
      chunk := if forward then first else last;
      while chunk.index != index
        invariant chunk != null && chunk.index < |chunks| && chunks[chunk.index] == chunk
        invariant if forward then chunk.index <= index else index <= chunk.index
        decreases if forward then index - chunk.index else chunk.index - index
      {
        chunk := if forward then chunk.next else chunk.prev;
      }
    }
  }

  // ---------------------------------------------------------------- what a subscriber gets

  lemma {:induction false} FlatAppend(a: seq<seq<Byte>>, b: seq<seq<Byte>>)
    ensures Flat(a + b) == Flat(a) + Flat(b)
  {
    if b == [] {
      assert a + b == a;
    } else {
      FlatAppend(a, b[..|b| - 1]);
      assert (a + b)[..|a + b| - 1] == a + b[..|b| - 1];
    }
  }

  lemma FlatSlice(cs: seq<seq<Byte>>, i: nat, j: nat)
    requires i <= j < |cs|
    ensures Flat(cs[i..j + 1]) == Flat(cs[i..j]) + cs[j]
  {
    assert cs[i..j + 1][..j - i] == cs[i..j];
  }

  // The connection has taken the chunks from..i, and part of the next one if it broke there.
  ghost predicate Took(cs: seq<seq<Byte>>, from: nat, i: nat, before: seq<Byte>, after: seq<Byte>, broke: bool)
  {
    && from <= i <= |cs|
    && if !broke then after == before + Flat(cs[from..i])
       else i < |cs| && exists k :: 0 <= k < |cs[i]| && after == before + Flat(cs[from..i]) + cs[i][..k]
  }

  lemma TookNone(cs: seq<seq<Byte>>, from: nat, before: seq<Byte>)
    requires from <= |cs|
    ensures Took(cs, from, from, before, before, false)
  {
  }

  lemma TookNext(cs: seq<seq<Byte>>, from: nat, i: nat, before: seq<Byte>, got: seq<Byte>, after: seq<Byte>)
    requires Took(cs, from, i, before, got, false) && i < |cs|
    ensures after == got + cs[i] ==> Took(cs, from, i + 1, before, after, false)
    ensures (exists k :: 0 <= k < |cs[i]| && after == got + cs[i][..k]) ==> Took(cs, from, i, before, after, true)
  {
    FlatSlice(cs, from, i);
    assert got + cs[i] == before + (Flat(cs[from..i]) + cs[i]);
  }

  // While the connection takes everything so far, what its answers left say of the chunks left decides the whole.
  ghost predicate Decides(answers: seq<int>, cs: seq<seq<Byte>>, from: nat, left: seq<int>, i: nat)
  {
    from <= i <= |cs| && (AcceptsAll(left, cs[i..]) <==> AcceptsAll(answers, cs[from..]))
  }

  lemma DecidesNext(answers: seq<int>, cs: seq<seq<Byte>>, from: nat, left: seq<int>, i: nat)
    requires Decides(answers, cs, from, left, i) && i < |cs|
    ensures !Accepts(left, |cs[i]|) ==> !AcceptsAll(answers, cs[from..])
    ensures Accepts(left, |cs[i]|) ==> Decides(answers, cs, from, Left(left, |cs[i]|), i + 1)
  {
    assert cs[i..][1..] == cs[i + 1..];
  }

  lemma DecidesEnds(answers: seq<int>, cs: seq<seq<Byte>>, from: nat, left: seq<int>)
    requires from <= |cs|
    ensures Decides(answers, cs, from, answers, from)
    ensures Decides(answers, cs, from, left, |cs|) ==> AcceptsAll(answers, cs[from..])
  {
  }

  /** __send_chunks_to_subscriber between its locks: the connection gets the chunks from the first it lacks to
      the last of the log, or as much of them as it takes before it breaks, and chunkLoaded counts the whole ones. All
      are sent exactly if the connection takes them, one after the other. */
  method SendChunks(log: Container, subscriber: Subscriber) returns (done: bool)
    requires log.Valid() && subscriber.chunkLoaded <= log.count
    modifies subscriber`chunkLoaded, subscriber.socket
    ensures done <==> AcceptsAll(old(subscriber.socket.answers), log.Contents()[old(subscriber.chunkLoaded)..])
    ensures done ==> subscriber.chunkLoaded == log.count
    ensures Took(log.Contents(), old(subscriber.chunkLoaded), subscriber.chunkLoaded,
                 old(subscriber.socket.received), subscriber.socket.received, !done)
  {
    hide Took, Decides, Accepts, AcceptsAll, Left, log.Valid;
    log.Size();
    var start := subscriber.chunkLoaded;
    var last := log.count;
    var chunk := log.GetChunk(start);
    ghost var cs, before, answers := log.Contents(), subscriber.socket.received, subscriber.socket.answers;
    TookNone(cs, start, before);
    DecidesEnds(answers, cs, start, answers);
    if chunk == null {
      return true;
    }
    var i := start;
    while i < last
      invariant start <= i == subscriber.chunkLoaded <= last == log.count
      invariant log.Valid() && log.Contents() == cs
      invariant chunk == if i < last then log.chunks[i] else null
      invariant Took(cs, start, i, before, subscriber.socket.received, false)
      invariant Decides(answers, cs, start, subscriber.socket.answers, i)
    {
      ghost var got, left := subscriber.socket.received, subscriber.socket.answers;
      var rc := SendDataToFd(subscriber.socket, chunk.data);
      TookNext(cs, start, i, before, got, subscriber.socket.received);
      DecidesNext(answers, cs, start, left, i);
      if rc != 0 {
        return false;
      }
      log.NextOf(i);
      chunk := chunk.next;
      subscriber.chunkLoaded := subscriber.chunkLoaded + 1;
      i := i + 1;
    }
    DecidesEnds(answers, cs, start, subscriber.socket.answers);
    return true;
  }

  // ---------------------------------------------------------------- the cache

  const CACHE_BUFFER_SIZE := 4048

  // What fread hands out of a file, one buffer at a time.
  function Pieces(file: seq<Byte>): seq<seq<Byte>>
  {
    if file == [] then [] else
    var n := Min(CACHE_BUFFER_SIZE, |file|);
    [file[..n]] + Pieces(file[n..])
  }

  lemma FlatOne(c: seq<Byte>)
    ensures Flat([c]) == c && Flat([]) == []
  {
    assert [c][..0] == [];
  }

  /** Cutting a file into buffers loses nothing and makes no empty piece; every piece but the last is full. */
  lemma {:induction false} PiecesKeep(file: seq<Byte>)
    ensures Flat(Pieces(file)) == file
    ensures forall i :: 0 <= i < |Pieces(file)| ==> 0 < |Pieces(file)[i]| <= CACHE_BUFFER_SIZE
    ensures forall i :: 0 <= i < |Pieces(file)| - 1 ==> |Pieces(file)[i]| == CACHE_BUFFER_SIZE
  {
    if file != [] {
      var n := Min(CACHE_BUFFER_SIZE, |file|);
      PiecesKeep(file[n..]);
      FlatAppend([file[..n]], Pieces(file[n..]));
      FlatOne(file[..n]);
      hide Flat;
    }
  }

  /** save_cache: the file gets the chunks one after the other. */
  method SaveCache(log: Container) returns (file: seq<Byte>)
    requires log.Valid()
    ensures file == Flat(log.Contents())
  {
    file := [];
    var current := log.first;
    ghost var i := 0;
    ghost var cs := log.Contents();
    while current != null
      invariant 0 <= i <= |log.chunks|
      invariant current == if i < |log.chunks| then log.chunks[i] else null
      invariant file == Flat(cs[..i])
      decreases |log.chunks| - i
    {
      file := file + current.data;
      assert cs[0..i] == cs[..i] && cs[0..i + 1] == cs[..i + 1];
      FlatSlice(cs, 0, i);
      current := current.next;
      i := i + 1;
    }
    assert cs[..i] == cs;
  }

  // cs is the log of before with the pieces of the file up to offset.
  ghost predicate Shared(cs: seq<seq<Byte>>, before: seq<seq<Byte>>, file: seq<Byte>, offset: nat)
  {
    offset <= |file| && cs + Pieces(file[offset..]) == before + Pieces(file)
  }

  lemma SharedNext(cs: seq<seq<Byte>>, before: seq<seq<Byte>>, file: seq<Byte>, offset: nat)
    requires Shared(cs, before, file, offset) && offset < |file|
    ensures
      var n := Min(CACHE_BUFFER_SIZE, |file| - offset);
      Shared(cs + [file[offset..offset + n]], before, file, offset + n)
  {
    var n := Min(CACHE_BUFFER_SIZE, |file| - offset);
    var buffer := file[offset..offset + n];
    assert file[offset..][..n] == buffer && file[offset..][n..] == file[offset + n..];
    assert cs + ([buffer] + Pieces(file[offset + n..])) == cs + [buffer] + Pieces(file[offset + n..]);
  }

  lemma SharedAll(cs: seq<seq<Byte>>, before: seq<seq<Byte>>, file: seq<Byte>)
    requires Shared(cs, before, file, |file|)
    ensures cs == before + Pieces(file) && Flat(cs) == Flat(before) + file
  {
    assert file[|file|..] == [];
    FlatAppend(before, Pieces(file));
    PiecesKeep(file);
  }

  /** share_cache: what was in the file joins the log buffer by buffer, none of them refused. */
  method ShareCache(file: seq<Byte>, log: Container)
    requires log.Valid()
    modifies log, log.chunks
    ensures log.Valid() && log.Contents() == old(log.Contents()) + Pieces(file)
    ensures Flat(log.Contents()) == Flat(old(log.Contents())) + file
  {
    var offset := 0;
    ghost var were := log.Contents();
    assert file[0..] == file;
    assert Shared(were, were, file, 0);
    hide Shared, Pieces, Flat, log.Valid;
    while offset < |file|
      invariant 0 <= offset <= |file|
      invariant log.Valid() && Shared(log.Contents(), were, file, offset)
      invariant forall c :: c in log.chunks ==> c in old(log.chunks) || fresh(c)
    {
      var n := Min(CACHE_BUFFER_SIZE, |file| - offset);
      var buffer := file[offset..offset + n];
      SharedNext(log.Contents(), were, file, offset);
      ghost var chunks := log.chunks;
      log.LastIn();
      log.AddChunk(Some(buffer), n, 1);
      assert buffer[..n] == buffer;
      offset := offset + n;
      assert forall c :: c in log.chunks ==> c in chunks || c in log.chunks[|chunks|..];
    }
    SharedAll(log.Contents(), were, file);
  }
}
