// Overlapping chunks of a document (examples/booking/services/doc_chunk.py,
// chunk_text), on the document's list of words.
module Chunks {
  // int(500 / 1.3) and int(50 / 1.3).
  const CHUNK_WORDS := 384
  const OVERLAP_WORDS := 38
  const STEP := CHUNK_WORDS - OVERLAP_WORDS

  function Min(a: nat, b: nat): nat {
    if a < b then a else b
  }

  // The first chunk, then every later chunk without the words it repeats.
  function Rejoin(chunks: seq<seq<string>>): seq<string> {
    if chunks == [] then []
    else if |chunks| == 1 then chunks[0]
    else
      var last := chunks[|chunks| - 1];
      Rejoin(chunks[..|chunks| - 1]) + if |last| >= OVERLAP_WORDS then last[OVERLAP_WORDS..] else []
  }

  // How many chunks n words make.
  function ChunkCount(n: nat): nat {
    if n == 0 then 0
    else if n <= CHUNK_WORDS then 1
    else 1 + (n - CHUNK_WORDS + STEP - 1) / STEP
  }

  // Each chunk starts STEP words after the one before, is CHUNK_WORDS long
  // except perhaps the last, and together they are the whole document.
  ghost predicate Chunked(words: seq<string>, chunks: seq<seq<string>>) {
    && |chunks| == ChunkCount(|words|)
    && Rejoin(chunks) == words
    && (forall k :: 0 <= k < |chunks| - 1 ==> |chunks[k]| == CHUNK_WORDS)
    && (forall k :: 0 <= k < |chunks| ==> IsWindow(words, chunks[k], k * STEP))
  }

  predicate IsWindow(words: seq<string>, chunk: seq<string>, start: nat) {
    start < |words| && chunk == words[start..Min(start + CHUNK_WORDS, |words|)]
  }

  // After the first `k` chunks, the last of which does not reach the end.
  ghost predicate SoFar(words: seq<string>, chunks: seq<seq<string>>, start: nat) {
    && start == |chunks| * STEP
    && start < |words|
    && (chunks != [] ==> start + OVERLAP_WORDS < |words| && Rejoin(chunks) == words[..start + OVERLAP_WORDS])
    && (forall k :: 0 <= k < |chunks| ==> |chunks[k]| == CHUNK_WORDS && IsWindow(words, chunks[k], k * STEP))
  }

  lemma RejoinSnoc(chunks: seq<seq<string>>, c: seq<string>)
    ensures Rejoin(chunks + [c]) ==
      if chunks == [] then c else Rejoin(chunks) + if |c| >= OVERLAP_WORDS then c[OVERLAP_WORDS..] else []
  {
    if chunks == [] {
      assert chunks + [c] == [c];
    } else {
      assert (chunks + [c])[..|chunks|] == chunks;
    }
  }

  lemma Continue(words: seq<string>, a: nat, b: nat, c: nat)
    requires a <= b <= c <= |words|
    ensures words[..b] + words[a..c][b - a..] == words[..c]
  {
  }

  // One more window continues the text exactly where the last one stopped.
  lemma WindowContinues(words: seq<string>, chunks: seq<seq<string>>, start: nat, c: seq<string>)
    requires IsWindow(words, c, start) && (chunks == [] ==> start == 0)
    requires chunks != [] ==> start + OVERLAP_WORDS < |words| && Rejoin(chunks) == words[..start + OVERLAP_WORDS]
    ensures Rejoin(chunks + [c]) == words[..Min(start + CHUNK_WORDS, |words|)]
  {
    RejoinSnoc(chunks, c);
    if chunks != [] {
      Continue(words, start, start + OVERLAP_WORDS, Min(start + CHUNK_WORDS, |words|));
    }
  }

  // In plain numbers.
  lemma CountOf(n: nat)
    ensures n == 0 ==> ChunkCount(n) == 0
    ensures 0 < n <= 384 ==> ChunkCount(n) == 1
    ensures n > 384 ==> 346 * (ChunkCount(n) - 2) < n - 384 <= 346 * (ChunkCount(n) - 1)
  {
  }

  lemma LastCounts(n: nat, k: nat)
    requires k * STEP < n <= k * STEP + CHUNK_WORDS && (k > 0 ==> n > (k - 1) * STEP + CHUNK_WORDS)
    ensures k + 1 == ChunkCount(n)
  {
  }

  method ChunkText(words: seq<string>) returns (chunks: seq<seq<string>>)
    ensures Chunked(words, chunks)
  {
    chunks := [];
    if words == [] {
      return;
    }
    var start := 0;
    while start < |words|
      invariant SoFar(words, chunks, start)
      decreases |words| - start
    {
      var c := words[start..Min(start + CHUNK_WORDS, |words|)];
      WindowContinues(words, chunks, start, c);
      if start + CHUNK_WORDS >= |words| {
        LastCounts(|words|, |chunks|);
        chunks := chunks + [c];
        assert words[..|words|] == words;
        return;
      }
      chunks := chunks + [c];
      start := start + STEP;
    }
  }
}
