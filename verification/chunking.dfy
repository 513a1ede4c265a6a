/** Ingestion: splitting a resume's text into overlapping windows of tokens and
    turning the windows of each resume into numbered chunk records
    (dataset_praser.py, and the same record numbering in the upload route). */
module Chunking {
  import opened Strings

  const DefaultChunkSize: nat := 300
  const DefaultOverlap: nat := 100

  /** A resume as a loader delivers it. */
  datatype Resume = Resume(id: int, category: string, text: string)

  /** An embedding; its numbers are never inspected here. */
  type Vector = seq<real>

  /** One row of the chunk table. */
  datatype ChunkRecord = ChunkRecord(resumeId: int, category: string, chunkId: nat, text: string, embedding: Vector)

  /** How many cursor positions 0, step, 2*step, ... lie below n, counted the way
      the loop advances. */
  function WindowCount(n: nat, step: nat): nat
    requires step > 0
    decreases n
  {
    if n == 0 then 0 else if n <= step then 1 else 1 + WindowCount(n - step, step)
  }

  /** The cursor after k advances of `step` tokens. */
  function Start(k: nat, step: nat): nat {
    if k == 0 then 0 else Start(k - 1, step) + step
  }

  /** The cursor after k advances is k * step. */
  lemma {:induction false} StartIsProduct(k: nat, step: nat)
    ensures Start(k, step) == k * step
  {
    if k > 0 {
      StartIsProduct(k - 1, step);
      assert k * step == (k - 1) * step + step;
    }
  }

  /** Window k exists exactly when its start is still inside the token list. */
  lemma {:induction false} WindowStartBound(n: nat, step: nat, k: nat)
    requires step > 0
    ensures k < WindowCount(n, step) <==> Start(k, step) < n
    decreases n
  {
    if k > 0 {
      if n > step {
        WindowStartBound(n - step, step, k - 1);
      } else {
        StartGrows(k, step);
      }
    }
  }

  lemma StartGrows(k: nat, step: nat)
    requires k > 0
    ensures Start(k, step) >= step
  {
  }

  /** The count is ceil(n / step): the least c with n <= c * step. */
  lemma WindowCountIsCeiling(n: nat, step: nat)
    requires step > 0
    ensures n <= WindowCount(n, step) * step
    ensures WindowCount(n, step) == 0 || (WindowCount(n, step) - 1) * step < n
  {
    var c := WindowCount(n, step);
    WindowStartBound(n, step, c);
    StartIsProduct(c, step);
    if c > 0 {
      WindowStartBound(n, step, c - 1);
      StartIsProduct(c - 1, step);
    }
  }

  /** The tokens of window k: `tokens[start : start + size]`, cut at the end. */
  function Window(tokens: seq<string>, size: nat, step: nat, k: nat): seq<string>
    requires step > 0 && k < WindowCount(|tokens|, step)
  {
    WindowStartBound(|tokens|, step, k);
    tokens[Start(k, step) .. Min(Start(k, step) + size, |tokens|)]
  }

  /** The chunk texts: each window's tokens joined by single spaces, in window order. */
  function Chunks(tokens: seq<string>, size: nat, step: nat): seq<string>
    requires step > 0
  {
    seq(WindowCount(|tokens|, step),
        k requires 0 <= k < WindowCount(|tokens|, step) => Join(" ", Window(tokens, size, step, k)))
  }

  /** No tokens, no chunks; any token at all gives at least one chunk. */
  lemma ChunksEmpty(tokens: seq<string>, size: nat, step: nat)
    requires step > 0
    ensures Chunks(tokens, size, step) == [] <==> tokens == []
  {
    WindowStartBound(|tokens|, step, 0);
  }

  /** Window k starts at token `Start(k, step)` and reads consecutive tokens; it
      is never longer than `size`, never empty, and exactly `size` long iff it
      fits before the end, so every window starting within `size` of the end is short. */
  lemma WindowShape(tokens: seq<string>, size: nat, step: nat, k: nat)
    requires 0 < step && 0 < size && k < WindowCount(|tokens|, step)
    ensures 1 <= |Window(tokens, size, step, k)| <= size
    ensures |Window(tokens, size, step, k)| == size <==> Start(k, step) + size <= |tokens|
    ensures forall j :: 0 <= j < |Window(tokens, size, step, k)| ==>
              Start(k, step) + j < |tokens| && Window(tokens, size, step, k)[j] == tokens[Start(k, step) + j]
  {
    var w := WindowAt(tokens, size, step, k);
    SliceShape(tokens, Start(k, step), size);
  }

  /** The slice `tokens[start : start + size]` of a start inside the list. */
  lemma SliceShape(tokens: seq<string>, start: nat, size: nat)
    requires 0 < size && start < |tokens|
    ensures var w := tokens[start .. Min(start + size, |tokens|)];
      && 1 <= |w| <= size
      && (|w| == size <==> start + size <= |tokens|)
      && forall j :: 0 <= j < |w| ==> start + j < |tokens| && w[j] == tokens[start + j]
  {
  }

  /** Every token lies in some window, at its own offset, because the cursor
      never advances by more than the window size. */
  lemma WindowsCover(tokens: seq<string>, size: nat, step: nat, t: nat)
    requires 0 < step <= size && t < |tokens|
    ensures exists k :: 0 <= k < WindowCount(|tokens|, step) && Start(k, step) <= t
                        && t - Start(k, step) < |Window(tokens, size, step, k)|
                        && Window(tokens, size, step, k)[t - Start(k, step)] == tokens[t]
  {
    var k := WindowBefore(t, step);
    WindowStartBound(|tokens|, step, k);
    var w := WindowAt(tokens, size, step, k);
    assert t - Start(k, step) < |w|;
  }

  /** The last cursor position at or before token t. */
  lemma {:induction false} WindowBefore(t: nat, step: nat) returns (k: nat)
    requires step > 0
    ensures Start(k, step) <= t < Start(k, step) + step
    decreases t
  {
    if t < step {
      k := 0;
    } else {
      var k' := WindowBefore(t - step, step);
      k := k' + 1;
    }
  }

  /** Two consecutive windows share `size - step` tokens (the overlap) when the
      first one is full. */
  lemma ConsecutiveWindowsOverlap(tokens: seq<string>, size: nat, step: nat, k: nat)
    requires 0 < step <= size
    requires k + 1 < WindowCount(|tokens|, step)
    requires Start(k, step) + size <= |tokens|
    ensures |Window(tokens, size, step, k + 1)| >= size - step
    ensures Window(tokens, size, step, k)[step..] == Window(tokens, size, step, k + 1)[..size - step]
  {
    var w0 := WindowAt(tokens, size, step, k);
    var w1 := WindowAt(tokens, size, step, k + 1);
    assert Start(k + 1, step) == Start(k, step) + step;
    SlicesOverlap(tokens, Start(k, step), size, step);
  }

  /** A full slice from `start` and the slice from `start + step` share `size - step` elements. */
  lemma SlicesOverlap(tokens: seq<string>, start: nat, size: nat, step: nat)
    requires 0 < step <= size && start + size <= |tokens| && start + step < |tokens|
    ensures var w0 := tokens[start .. Min(start + size, |tokens|)];
      var w1 := tokens[start + step .. Min(start + step + size, |tokens|)];
      && |w1| >= size - step
      && w0[step..] == w1[..size - step]
  {
    var w0 := tokens[start .. Min(start + size, |tokens|)];
    var w1 := tokens[start + step .. Min(start + step + size, |tokens|)];
    assert w0[step..] == tokens[start + step .. start + size];
    assert w1[..size - step] == tokens[start + step .. start + size];
  }

  /** Window k, unfolded, with its start inside the token list. */
  lemma WindowAt(tokens: seq<string>, size: nat, step: nat, k: nat) returns (w: seq<string>)
    requires step > 0 && k < WindowCount(|tokens|, step)
    ensures Start(k, step) < |tokens|
    ensures w == Window(tokens, size, step, k) == tokens[Start(k, step) .. Min(Start(k, step) + size, |tokens|)]
  {
    WindowStartBound(|tokens|, step, k);
    w := Window(tokens, size, step, k);
  }

  class TextChunker {
    const chunkSize: nat
    const overlap: nat
    /** The word tokenizer; its rules are not part of this model. */
    const tokenize: string -> seq<string>

    constructor (tokenize: string -> seq<string>, chunkSize: nat, overlap: nat)
      ensures this.tokenize == tokenize && this.chunkSize == chunkSize && this.overlap == overlap
    {
      this.tokenize := tokenize;
      this.chunkSize := chunkSize;
      this.overlap := overlap;
    }

    /** The windows of the text's tokens, advancing the cursor by
        `chunkSize - overlap`; the source's loop only ends when that step is positive. */
    method ChunkText(text: string) returns (chunks: seq<string>)
      requires overlap < chunkSize
      ensures chunks == Chunks(tokenize(text), chunkSize, chunkSize - overlap)
    {
      var tokens := tokenize(text);
      var step := chunkSize - overlap;
      chunks := [];
      var i := 0;
      while i < |tokens|
        invariant i == Start(|chunks|, step)
        invariant |chunks| <= WindowCount(|tokens|, step)
        invariant chunks == Chunks(tokens, chunkSize, step)[..|chunks|]
      {
        WindowStartBound(|tokens|, step, |chunks|);
        chunks := chunks + [Join(" ", tokens[i .. Min(i + chunkSize, |tokens|)])];
        i := i + step;
      }
      WindowStartBound(|tokens|, step, |chunks|);
    }
  }

  /** `enumerate(zip(chunks, embeddings))`: one record per pair, numbered from 0. */
  function RecordsFor(resumeId: int, category: string, chunks: seq<string>, embeddings: seq<Vector>): seq<ChunkRecord> {
    RecordsFrom(resumeId, category, chunks, embeddings, 0)
  }

  /** The records of the pairs, numbered from `start`, until either list runs out. */
  function RecordsFrom(resumeId: int, category: string, chunks: seq<string>, embeddings: seq<Vector>, start: nat)
    : seq<ChunkRecord>
    decreases |chunks|
  {
    if chunks == [] || embeddings == [] then []
    else [ChunkRecord(resumeId, category, start, chunks[0], embeddings[0])]
         + RecordsFrom(resumeId, category, chunks[1..], embeddings[1..], start + 1)
  }

  /** As many records as the shorter list has elements, record i holding pair i under number `start + i`. */
  lemma {:induction false} RecordsFromShape(resumeId: int, category: string, chunks: seq<string>, embeddings: seq<Vector>, start: nat)
    ensures |RecordsFrom(resumeId, category, chunks, embeddings, start)| == Min(|chunks|, |embeddings|)
    ensures forall i :: 0 <= i < |RecordsFrom(resumeId, category, chunks, embeddings, start)| ==>
      RecordsFrom(resumeId, category, chunks, embeddings, start)[i]
        == ChunkRecord(resumeId, category, start + i, chunks[i], embeddings[i])
    decreases |chunks|
  {
    if chunks != [] && embeddings != [] {
      RecordsFromShape(resumeId, category, chunks[1..], embeddings[1..], start + 1);
    }
  }

  method BuildRecords(resumeId: int, category: string, chunks: seq<string>, embeddings: seq<Vector>)
    returns (records: seq<ChunkRecord>)
    ensures records == RecordsFor(resumeId, category, chunks, embeddings)
  {
    records := [];
    var i := 0;
    while i < |chunks| && i < |embeddings|
      invariant 0 <= i <= |chunks| && i <= |embeddings|
      invariant records + RecordsFrom(resumeId, category, chunks[i..], embeddings[i..], i)
                == RecordsFor(resumeId, category, chunks, embeddings)
    {
      assert chunks[i..][1..] == chunks[i + 1..] && embeddings[i..][1..] == embeddings[i + 1..];
      records := records + [ChunkRecord(resumeId, category, i, chunks[i], embeddings[i])];
      i := i + 1;
    }
    assert records + [] == records;
  }

  /** The records one resume contributes: none when its text has no tokens. */
  function ResumeRecords(r: Resume, chunker: TextChunker, embed: seq<string> -> seq<Vector>): seq<ChunkRecord>
    requires chunker.overlap < chunker.chunkSize
  {
    var chunks := Chunks(chunker.tokenize(r.text), chunker.chunkSize, chunker.chunkSize - chunker.overlap);
    if chunks == [] then [] else RecordsFor(r.id, r.category, chunks, embed(chunks))
  }

  /** The records of all resumes, resume after resume. */
  function AllRecords(resumes: seq<Resume>, chunker: TextChunker, embed: seq<string> -> seq<Vector>): seq<ChunkRecord>
    requires chunker.overlap < chunker.chunkSize
  {
    if resumes == [] then []
    else ResumeRecords(resumes[0], chunker, embed) + AllRecords(resumes[1..], chunker, embed)
  }

  /** Resume order is kept: the records of a concatenation are the concatenation of the records. */
  lemma {:induction false} AllRecordsAppend(a: seq<Resume>, b: seq<Resume>, chunker: TextChunker, embed: seq<string> -> seq<Vector>)
    requires chunker.overlap < chunker.chunkSize
    ensures AllRecords(a + b, chunker, embed) == AllRecords(a, chunker, embed) + AllRecords(b, chunker, embed)
  {
    if a != [] {
      assert (a + b)[0] == a[0] && (a + b)[1..] == a[1..] + b;
      AllRecordsAppend(a[1..], b, chunker, embed);
    } else {
      assert a + b == b;
    }
  }

  /** A resume whose text has no tokens adds nothing wherever it stands. */
  lemma EmptyResumeSkipped(a: seq<Resume>, r: Resume, b: seq<Resume>, chunker: TextChunker, embed: seq<string> -> seq<Vector>)
    requires chunker.overlap < chunker.chunkSize
    requires chunker.tokenize(r.text) == []
    ensures AllRecords(a + [r] + b, chunker, embed) == AllRecords(a + b, chunker, embed)
  {
    var before, after := AllRecords(a, chunker, embed), AllRecords(b, chunker, embed);
    assert AllRecords([r], chunker, embed) == [] by {
      ChunksEmpty(chunker.tokenize(r.text), chunker.chunkSize, chunker.chunkSize - chunker.overlap);
      AllRecordsSingle(r, chunker, embed);
    }
    assert AllRecords(a + [r], chunker, embed) == before by {
      AllRecordsAppend(a, [r], chunker, embed);
      assert before + [] == before;
    }
    assert AllRecords(a + [r] + b, chunker, embed) == before + after by {
      AllRecordsAppend(a + [r], b, chunker, embed);
    }
    AllRecordsAppend(a, b, chunker, embed);
  }

  lemma AllRecordsSingle(r: Resume, chunker: TextChunker, embed: seq<string> -> seq<Vector>)
    requires chunker.overlap < chunker.chunkSize
    ensures AllRecords([r], chunker, embed) == ResumeRecords(r, chunker, embed)
  {
    assert [r][1..] == [];
  }

  /** `rec` is chunk number `rec.chunkId` of resume `r`: same id and category, that chunk's text. */
  predicate FromResume(rec: ChunkRecord, r: Resume, chunker: TextChunker)
    requires chunker.overlap < chunker.chunkSize
  {
    var chunks := Chunks(chunker.tokenize(r.text), chunker.chunkSize, chunker.chunkSize - chunker.overlap);
    rec.resumeId == r.id && rec.category == r.category && rec.chunkId < |chunks| && rec.text == chunks[rec.chunkId]
  }

  /** Every record comes from one of the input resumes. */
  lemma {:induction false} RecordOrigin(resumes: seq<Resume>, chunker: TextChunker, embed: seq<string> -> seq<Vector>, j: nat)
    requires chunker.overlap < chunker.chunkSize
    requires j < |AllRecords(resumes, chunker, embed)|
    ensures exists i :: 0 <= i < |resumes| && FromResume(AllRecords(resumes, chunker, embed)[j], resumes[i], chunker)
  {
    var head := ResumeRecords(resumes[0], chunker, embed);
    var all := AllRecords(resumes, chunker, embed);
    if j < |head| {
      var r := resumes[0];
      var chunks := Chunks(chunker.tokenize(r.text), chunker.chunkSize, chunker.chunkSize - chunker.overlap);
      RecordsFromShape(r.id, r.category, chunks, embed(chunks), 0);
      assert all[j] == head[j];
      assert FromResume(all[j], resumes[0], chunker);
    } else {
      RecordOrigin(resumes[1..], chunker, embed, j - |head|);
      var i :| 0 <= i < |resumes[1..]| && FromResume(AllRecords(resumes[1..], chunker, embed)[j - |head|], resumes[1..][i], chunker);
      assert all[j] == AllRecords(resumes[1..], chunker, embed)[j - |head|];
      assert FromResume(all[j], resumes[i + 1], chunker);
    }
  }

  class ResumeProcessor {
    const chunker: TextChunker
    /** The sentence-embedding model; one vector per chunk is expected but not assumed. */
    const embed: seq<string> -> seq<Vector>

    /** A processor with the default chunker (300-token windows, 100 tokens of overlap). */
    constructor (tokenize: string -> seq<string>, embed: seq<string> -> seq<Vector>)
      ensures fresh(chunker) && chunker.tokenize == tokenize && this.embed == embed
      ensures chunker.chunkSize == DefaultChunkSize && chunker.overlap == DefaultOverlap
    {
      chunker := new TextChunker(tokenize, DefaultChunkSize, DefaultOverlap);
      this.embed := embed;
    }

    /** The records of every loaded resume, skipping those that yield no chunks. */
    method Process(resumes: seq<Resume>) returns (allChunks: seq<ChunkRecord>)
      requires chunker.overlap < chunker.chunkSize
      ensures allChunks == AllRecords(resumes, chunker, embed)
    {
      allChunks := [];
      var j := 0;
      while j < |resumes|
        invariant 0 <= j <= |resumes|
        invariant allChunks == AllRecords(resumes[..j], chunker, embed)
      {
        var resume := resumes[j];
        var chunks := chunker.ChunkText(resume.text);
        ghost var target := AllRecords(resumes[..j + 1], chunker, embed);
        assert target == allChunks + ResumeRecords(resume, chunker, embed) by {
          AllRecordsAppend(resumes[..j], [resume], chunker, embed);
          assert resumes[..j + 1] == resumes[..j] + [resume];
          AllRecordsSingle(resume, chunker, embed);
        }
        if chunks != [] {
          var embeddings := embed(chunks);
          var records := BuildRecords(resume.id, resume.category, chunks, embeddings);
          assert records == ResumeRecords(resume, chunker, embed);
          allChunks := allChunks + records;
        } else {
          assert ResumeRecords(resume, chunker, embed) == [];
          assert allChunks + [] == allChunks;
        }
        assert allChunks == target;
        j := j + 1;
      }
      assert resumes[..j] == resumes;
    }
  }
}
