/** The incremental indexer (apps/knowledge-service indexer.py and reconciliation.py): it brings a
    search index and a manifest in line with the runbooks on disk, write by write, and may be cut
    off before any of them. */
module Indexer {
  import opened Wrappers
  import C = Chunking

  type ChunkId = C.ChunkId

  /** A runbook file: its document hash, and the chunks it yields unless it cannot be chunked. */
  datatype Source = Malformed(digest: string) | Parsed(digest: string, chunks: seq<ChunkId>)

  type Corpus = map<string, Source>

  datatype Store = Store(index: set<ChunkId>, manifest: map<string, string>)

  /** Every file is named after the id in its frontmatter, and a file that can be chunked has a chunk. */
  predicate WellNamed(corpus: Corpus) {
    forall r :: r in corpus && corpus[r].Parsed? ==>
      |corpus[r].chunks| > 0 && forall c :: c in corpus[r].chunks ==> c.runbook == r
  }

  /** A file as the run sees it: an unchunkable one still has a document hash. */
  function SourceOf(digest: string, chunked: Result<seq<C.Chunk>>): Source {
    match chunked
    case Err(_) => Malformed(digest)
    case Ok(chunks) => Parsed(digest, seq(|chunks|, i requires 0 <= i < |chunks| => chunks[i].id))
  }

  function ReadCorpus(files: map<string, string>, yaml: C.Yaml): Corpus {
    map r | r in files :: SourceOf(C.Document(files[r]), C.Chunked(files[r], yaml))
  }

  lemma SourceIsRead(digest: string, chunked: Result<seq<C.Chunk>>, source: Source)
    requires source == SourceOf(digest, chunked)
    ensures source.digest == digest && (source.Parsed? <==> chunked.Ok?)
    ensures chunked.Ok? ==>
              && |source.chunks| == |chunked.value|
              && forall i :: 0 <= i < |chunked.value| ==> source.chunks[i] == chunked.value[i].id
  {
  }

  lemma FilesAreKeys(files: map<string, string>, yaml: C.Yaml)
    ensures ReadCorpus(files, yaml).Keys == files.Keys
  {
  }

  /** Every file with its hash, and with the ids of its chunks, in order, if it can be chunked. */
  lemma FileIsRead(files: map<string, string>, yaml: C.Yaml, r: string, digest: string, chunked: Result<seq<C.Chunk>>, source: Source)
    requires r in files && digest == C.Document(files[r]) && chunked == C.Chunked(files[r], yaml)
    requires r in ReadCorpus(files, yaml) && source == ReadCorpus(files, yaml)[r]
    ensures source.digest == digest && (source.Parsed? <==> chunked.Ok?)
    ensures chunked.Ok? ==>
              && |source.chunks| == |chunked.value|
              && forall i :: 0 <= i < |chunked.value| ==> source.chunks[i] == chunked.value[i].id
  {
    SourceIsRead(digest, chunked, source);
  }

  /** Files whose frontmatter id is their own name make a well-named corpus. */
  lemma FilesAreWellNamed(files: map<string, string>, yaml: C.Yaml)
    requires forall r :: r in files ==> C.RunbookId(files[r], yaml) in {None, Some(r)}
    ensures WellNamed(ReadCorpus(files, yaml))
    ensures var corpus := ReadCorpus(files, yaml);
      forall r :: r in corpus && corpus[r].Parsed? ==>
        |corpus[r].chunks| > 0 && forall c :: c in corpus[r].chunks ==> c.runbook == r
  {
    var corpus := ReadCorpus(files, yaml);
    forall r | r in corpus && corpus[r].Parsed?
      ensures |corpus[r].chunks| > 0 && forall c :: c in corpus[r].chunks ==> c.runbook == r
    {
      C.ChunksBearTheId(files[r], yaml);
      IdsBearTheName(corpus[r].digest, C.Chunked(files[r], yaml), r);
    }
  }

  lemma IdsBearTheName(digest: string, chunked: Result<seq<C.Chunk>>, r: string)
    requires chunked.Ok? && |chunked.value| > 0 && forall c :: c in chunked.value ==> c.id.runbook == r
    ensures |SourceOf(digest, chunked).chunks| > 0 && forall c :: c in SourceOf(digest, chunked).chunks ==> c.runbook == r
  {
  }

  function Stored(index: set<ChunkId>, r: string): set<ChunkId> {
    set c | c in index && c.runbook == r
  }

  function Produced(source: Source): set<ChunkId> {
    if source.Parsed? then set c | c in source.chunks else {}
  }

  predicate Lists(manifest: map<string, string>, r: string, digest: string) {
    r in manifest && manifest[r] == digest
  }

  // ---------------------------------------------------------------- the two diffs

  function Changed(corpus: Corpus, manifest: map<string, string>): set<string> {
    set r | r in corpus && !Lists(manifest, r, corpus[r].digest)
  }

  function Removed(corpus: Corpus, manifest: map<string, string>): set<string> {
    manifest.Keys - corpus.Keys
  }

  /** Every id a run has to embed, and every id it has to delete. */
  ghost function ToEmbed(s: Store, corpus: Corpus): set<ChunkId> {
    set r, c | r in Changed(corpus, s.manifest) && c in Produced(corpus[r]) && c !in s.index :: c
  }

  ghost function ToDelete(s: Store, corpus: Corpus): set<ChunkId> {
    set c | c in s.index && (c.runbook in Removed(corpus, s.manifest)
                             || (c.runbook in Changed(corpus, s.manifest) && c !in Produced(corpus[c.runbook])))
  }

  // ---------------------------------------------------------------- what a run may leave behind

  ghost predicate Same(s: Store, t: Store, r: string) {
    && Stored(t.index, r) == Stored(s.index, r)
    && (r in t.manifest <==> r in s.manifest)
    && (r in s.manifest ==> t.manifest[r] == s.manifest[r])
  }

  /** No gap: all the ids the runbook had, or all its new ids, and nothing from elsewhere; the
      manifest does not speak for it yet. */
  ghost predicate Midway(s: Store, t: Store, r: string, source: Source) {
    && (Stored(s.index, r) <= Stored(t.index, r) || Produced(source) <= Stored(t.index, r))
    && Stored(t.index, r) <= Stored(s.index, r) + Produced(source)
    && (r in t.manifest <==> r in s.manifest)
    && (r in s.manifest ==> t.manifest[r] == s.manifest[r])
  }

  ghost predicate Indexed(t: Store, r: string, source: Source) {
    source.Parsed? && Stored(t.index, r) == Produced(source) && Lists(t.manifest, r, source.digest)
  }

  ghost predicate PartlyRemoved(s: Store, t: Store, r: string) {
    Stored(t.index, r) <= Stored(s.index, r) && r in t.manifest && r in s.manifest && t.manifest[r] == s.manifest[r]
  }

  ghost predicate Gone(t: Store, r: string) {
    Stored(t.index, r) == {} && r !in t.manifest
  }

  /** What a run over `corpus` from `s` may have done to runbook `r` when it is cut. */
  ghost predicate Allowed(s: Store, t: Store, corpus: Corpus, r: string) {
    if r in Changed(corpus, s.manifest) then Midway(s, t, r, corpus[r]) || Indexed(t, r, corpus[r])
    else if r in Removed(corpus, s.manifest) then PartlyRemoved(s, t, r) || Gone(t, r)
    else Same(s, t, r)
  }

  ghost predicate Settled(s: Store, t: Store, corpus: Corpus, r: string) {
    if r in Changed(corpus, s.manifest) then Indexed(t, r, corpus[r])
    else if r in Removed(corpus, s.manifest) then Gone(t, r)
    else Same(s, t, r)
  }

  ghost predicate CutFrom(s: Store, t: Store, corpus: Corpus) {
    forall r :: Allowed(s, t, corpus, r)
  }

  ghost predicate CompletedFrom(s: Store, t: Store, corpus: Corpus) {
    forall r :: Settled(s, t, corpus, r)
  }

  /** Where chunk `c` is after a completed run, said of the index and the manifest alone. */
  ghost predicate ChunkSettled(s: Store, t: Store, corpus: Corpus, c: ChunkId) {
    var r := c.runbook;
    if r in corpus && (r !in s.manifest || s.manifest[r] != corpus[r].digest)
    then corpus[r].Parsed? && (c in t.index <==> c in corpus[r].chunks)
    else if r in s.manifest && r !in corpus then c !in t.index
    else c in t.index <==> c in s.index
  }

  /** A completed run: the manifest names the files and their hashes; a file it did not name with that
      hash has exactly its chunks in the index; a file that is gone has none; every other chunk is
      where it was. */
  lemma CompletedMeans(s: Store, t: Store, corpus: Corpus)
    requires CompletedFrom(s, t, corpus) && WellNamed(corpus)
    ensures t.manifest.Keys == corpus.Keys && forall r :: r in corpus ==> t.manifest[r] == corpus[r].digest
    ensures forall c :: ChunkSettled(s, t, corpus, c)
  {
    forall r ensures r in t.manifest <==> r in corpus { assert Settled(s, t, corpus, r); }
    forall r | r in corpus ensures t.manifest[r] == corpus[r].digest { assert Settled(s, t, corpus, r); }
    forall c ensures ChunkSettled(s, t, corpus, c) {
      assert Settled(s, t, corpus, c.runbook);
      assert c in Stored(t.index, c.runbook) <==> c in t.index;
      assert c in Stored(s.index, c.runbook) <==> c in s.index;
    }
  }

  /** What a run has to embed and to delete: of a file the manifest does not name with its hash, the chunks
      that are not in the index, and the chunks in the index that are not the file's any more; of a file
      that is gone, all. */
  lemma WorkMeans(s: Store, corpus: Corpus, c: ChunkId)
    requires WellNamed(corpus)
    ensures var r := c.runbook;
            var changed := r in corpus && (r !in s.manifest || s.manifest[r] != corpus[r].digest);
      && (c in ToEmbed(s, corpus) <==> changed && corpus[r].Parsed? && c in corpus[r].chunks && c !in s.index)
      && (c in ToDelete(s, corpus) <==>
            c in s.index && ((changed && (corpus[r].Parsed? ==> c !in corpus[r].chunks)) || (r in s.manifest && r !in corpus)))
  {
    if c in ToEmbed(s, corpus) {
      var r :| r in Changed(corpus, s.manifest) && c in Produced(corpus[r]) && c !in s.index;
      assert c.runbook == r;
    }
  }

  /** A cut run: of a file the manifest does not name with its hash no chunk is missing that it had before
      and has still, the manifest names the new hash only once exactly the file's chunks are there, and
      a file that is unchanged keeps its chunks and its entry. */
  lemma CutMeans(s: Store, t: Store, corpus: Corpus, r: string, c: ChunkId)
    requires CutFrom(s, t, corpus) && WellNamed(corpus) && r in corpus && c.runbook == r
    ensures corpus[r].Parsed? && c in corpus[r].chunks && c in s.index && (r !in s.manifest || s.manifest[r] != corpus[r].digest) ==>
              c in t.index
    ensures r in t.manifest && t.manifest[r] == corpus[r].digest && (r !in s.manifest || s.manifest[r] != corpus[r].digest) ==>
              corpus[r].Parsed? && (c in t.index <==> c in corpus[r].chunks)
    ensures r in s.manifest && s.manifest[r] == corpus[r].digest ==>
              (c in t.index <==> c in s.index) && r in t.manifest && t.manifest[r] == s.manifest[r]
    ensures c in t.index ==> c in s.index || (corpus[r].Parsed? && c in corpus[r].chunks)
  {
    assert Allowed(s, t, corpus, r);
    assert c in Stored(t.index, r) <==> c in t.index;
    assert c in Stored(s.index, r) <==> c in s.index;
  }

  // ---------------------------------------------------------------- the corpus as an index

  ghost predicate InLine(t: Store, corpus: Corpus) {
    && t.manifest == (map r | r in corpus :: corpus[r].digest)
    && t.index == set r, c | r in corpus && c in Produced(corpus[r]) :: c
  }

  /** A hash-unchanged runbook has exactly its ids stored, and no chunk belongs to a runbook that
      neither the corpus nor the manifest knows. */
  ghost predicate Clean(s: Store, corpus: Corpus) {
    && (forall r :: r in corpus && Lists(s.manifest, r, corpus[r].digest) ==> Stored(s.index, r) == Produced(corpus[r]))
    && (forall c :: c in s.index ==> c.runbook in corpus || c.runbook in s.manifest)
  }

  /** A run that completes brings index and manifest in line with the corpus exactly when it
      started clean. */
  lemma CompletedIsInLine(s: Store, t: Store, corpus: Corpus)
    requires WellNamed(corpus) && CompletedFrom(s, t, corpus)
    ensures InLine(t, corpus) <==> Clean(s, corpus)
  {
    if Clean(s, corpus) { CleanReaches(s, t, corpus); }
    if InLine(t, corpus) { InLineStartedClean(s, t, corpus); }
  }

  lemma CleanReaches(s: Store, t: Store, corpus: Corpus)
    requires WellNamed(corpus) && CompletedFrom(s, t, corpus) && Clean(s, corpus)
    ensures InLine(t, corpus)
  {
    forall r ensures r in t.manifest <==> r in corpus { assert Settled(s, t, corpus, r); }
    forall r | r in corpus
      ensures t.manifest[r] == corpus[r].digest && Stored(t.index, r) == Produced(corpus[r])
    {
      assert Settled(s, t, corpus, r);
    }
    forall c | c in t.index ensures c.runbook in corpus && c in Produced(corpus[c.runbook]) {
      assert Settled(s, t, corpus, c.runbook);
      assert c in Stored(t.index, c.runbook);
    }
    forall r, c | r in corpus && c in Produced(corpus[r]) ensures c in t.index {
      assert c in Stored(t.index, r);
    }
  }

  lemma InLineStartedClean(s: Store, t: Store, corpus: Corpus)
    requires WellNamed(corpus) && CompletedFrom(s, t, corpus) && InLine(t, corpus)
    ensures Clean(s, corpus)
  {
    forall r | r in corpus && Lists(s.manifest, r, corpus[r].digest)
      ensures Stored(s.index, r) == Produced(corpus[r])
    {
      assert Settled(s, t, corpus, r);
      forall c | c in Produced(corpus[r]) ensures c in Stored(t.index, r) { assert c in t.index; }
      forall c | c in Stored(t.index, r) ensures c in Produced(corpus[r]) {
        var q :| q in corpus && c in Produced(corpus[q]);
        assert c.runbook == q;
      }
    }
    forall c | c in s.index ensures c.runbook in corpus || c.runbook in s.manifest {
      assert Settled(s, t, corpus, c.runbook);
      if c.runbook !in s.manifest { InLineKnows(t, corpus, c, s); }
    }
  }

  /** A chunk of a runbook the run leaves alone is in an index that is in line only if the corpus
      has the runbook. */
  lemma InLineKnows(t: Store, corpus: Corpus, c: ChunkId, s: Store)
    requires WellNamed(corpus) && InLine(t, corpus) && c in s.index
    requires c.runbook !in corpus ==> Same(s, t, c.runbook)
    ensures c.runbook in corpus
  {
    assert c in Stored(s.index, c.runbook);
    if c in t.index {
      var q :| q in corpus && c in Produced(corpus[q]);
      assert c.runbook == q;
    } else {
      assert c !in Stored(t.index, c.runbook);
    }
  }

  /** However often a run is cut, it neither loses nor gains cleanliness. */
  lemma CutKeepsClean(s: Store, t: Store, corpus: Corpus)
    requires WellNamed(corpus) && CutFrom(s, t, corpus)
    ensures Clean(t, corpus) <==> Clean(s, corpus)
  {
    forall r | r in corpus
      ensures Lists(s.manifest, r, corpus[r].digest) ==>
                Lists(t.manifest, r, corpus[r].digest) && Stored(t.index, r) == Stored(s.index, r)
      ensures Lists(t.manifest, r, corpus[r].digest) && !Lists(s.manifest, r, corpus[r].digest) ==>
                Stored(t.index, r) == Produced(corpus[r])
    {
      assert Allowed(s, t, corpus, r);
    }
    forall r | r !in corpus
      ensures r in s.manifest ==> r in t.manifest || Stored(t.index, r) == {}
      ensures r !in s.manifest ==> r !in t.manifest && Stored(t.index, r) == Stored(s.index, r)
    {
      assert Allowed(s, t, corpus, r);
    }
    assert forall c :: c in s.index ==> c in Stored(s.index, c.runbook);
    assert forall c :: c in t.index ==> c in Stored(t.index, c.runbook);
  }

  ghost predicate CutsFrom(states: seq<Store>, corpus: Corpus) {
    |states| > 0 && forall k :: 0 < k < |states| ==> CutFrom(states[k - 1], states[k], corpus)
  }

  lemma {:induction false} CutsKeepClean(states: seq<Store>, corpus: Corpus)
    requires WellNamed(corpus) && CutsFrom(states, corpus)
    ensures Clean(states[|states| - 1], corpus) <==> Clean(states[0], corpus)
  {
    if |states| > 1 {
      CutsKeepClean(states[..|states| - 1], corpus);
      assert CutFrom(states[|states| - 2], states[|states| - 1], corpus);
      CutKeepsClean(states[|states| - 2], states[|states| - 1], corpus);
    } else {
    }
  }

  /** Crash convergence: any number of cut runs and then a complete one end where a single
      uninterrupted run would have, provided the first started clean. */
  lemma CutRunsConverge(states: seq<Store>, resumed: Store, straight: Store, corpus: Corpus)
    requires WellNamed(corpus) && CutsFrom(states, corpus) && Clean(states[0], corpus)
    requires CompletedFrom(states[|states| - 1], resumed, corpus)
    requires CompletedFrom(states[0], straight, corpus)
    ensures resumed == straight && InLine(resumed, corpus)
    ensures forall c :: c in resumed.index ==> c.runbook in corpus
  {
    CutsKeepClean(states, corpus);
    CompletedIsInLine(states[|states| - 1], resumed, corpus);
    CompletedIsInLine(states[0], straight, corpus);
    assert resumed.index == straight.index;
    assert resumed.manifest == straight.manifest;
    forall c | c in resumed.index ensures c.runbook in corpus {
      var r :| r in corpus && c in Produced(corpus[r]);
      assert c.runbook == r;
    }
  }

  /** Right after a completed run, whatever it started from, there is nothing to embed, delete or record,
      and a further run leaves the store as it is wherever it is cut. */
  lemma CompletedNeedsNothing(s: Store, t: Store, corpus: Corpus)
    requires CompletedFrom(s, t, corpus)
    ensures Changed(corpus, t.manifest) == {} && Removed(corpus, t.manifest) == {}
    ensures ToEmbed(t, corpus) == {} && ToDelete(t, corpus) == {}
    ensures forall u :: CutFrom(t, u, corpus) <==> u == t
  {
    forall r ensures r in t.manifest <==> r in corpus { assert Settled(s, t, corpus, r); }
    forall r | r in corpus ensures Lists(t.manifest, r, corpus[r].digest) { assert Settled(s, t, corpus, r); }
    assert Changed(corpus, t.manifest) == {} == Removed(corpus, t.manifest);
    forall u | CutFrom(t, u, corpus) ensures u == t { SameEverywhere(t, u, corpus); }
    assert CutFrom(t, t, corpus);
  }

  lemma SameEverywhere(s: Store, t: Store, corpus: Corpus)
    requires CutFrom(s, t, corpus) && Changed(corpus, s.manifest) == {} && Removed(corpus, s.manifest) == {}
    ensures t == s
  {
    forall r ensures Same(s, t, r) { assert Allowed(s, t, corpus, r); }
    forall c ensures c in t.index <==> c in s.index {
      assert c in Stored(t.index, c.runbook) <==> c in t.index;
      assert c in Stored(s.index, c.runbook) <==> c in s.index;
      assert Same(s, t, c.runbook);
    }
    forall r ensures r in t.manifest <==> r in s.manifest { assert Same(s, t, r); }
    forall r | r in s.manifest ensures t.manifest[r] == s.manifest[r] { assert Same(s, t, r); }
    assert t.index == s.index;
    assert t.manifest == s.manifest;
  }

  /** The corpus must stay put until the re-run: here a run over an edited file is cut just before
      it records the edit, the file is put back as it was, and every later run takes it for
      unchanged while the index holds the edit. */
  lemma RevertedFileLooksUnchanged(r: string, before: ChunkId, after: ChunkId)
    requires before.runbook == r && after.runbook == r && before != after
    ensures var original := map[r := Parsed("0", [before])];
            var edited := map[r := Parsed("1", [after])];
            var s := Store({before}, map[r := "0"]);
            var cut := Store({after}, map[r := "0"]);
            && WellNamed(original) && WellNamed(edited) && InLine(s, original) && CutFrom(s, cut, edited)
            && !Clean(cut, original)
            && forall t :: CutFrom(cut, t, original) ==> t == cut
  {
    var original := map[r := Parsed("0", [before])];
    var edited := map[r := Parsed("1", [after])];
    var s, cut := Store({before}, map[r := "0"]), Store({after}, map[r := "0"]);
    assert Stored({before}, r) == {before} && Stored({after}, r) == {after};
    forall q ensures Allowed(s, cut, edited, q) {
      if q != r { assert Stored(s.index, q) == {} == Stored(cut.index, q); }
    }
    assert before in Produced(original[r]) && before !in Stored(cut.index, r);
    forall t | CutFrom(cut, t, original) ensures t == cut { SameEverywhere(cut, t, original); }
    assert s.index == set q, c | q in original && c in Produced(original[q]) :: c;
  }

  // ---------------------------------------------------------------- the run itself

  lemma Added(a: set<ChunkId>, b: set<ChunkId>, r: string, ids: set<ChunkId>, whole: bool)
    requires (forall c :: c in ids ==> c.runbook == r) && a <= b <= a + ids
    requires whole ==> ids <= b
    ensures forall q :: q != r ==> Stored(b, q) == Stored(a, q)
    ensures Stored(a, r) <= Stored(b, r) <= Stored(a, r) + ids
    ensures whole ==> Stored(b, r) == Stored(a, r) + ids
  {
  }

  lemma Dropped(a: set<ChunkId>, b: set<ChunkId>, r: string, ids: set<ChunkId>, whole: bool)
    requires (forall c :: c in ids ==> c.runbook == r) && a - ids <= b <= a
    requires whole ==> b == a - ids
    ensures forall q :: q != r ==> Stored(b, q) == Stored(a, q)
    ensures Stored(a, r) - ids <= Stored(b, r) <= Stored(a, r)
    ensures whole ==> Stored(b, r) == Stored(a, r) - ids
  {
  }

  /** The share of `ids` that belongs to the runbooks `rs`. */
  ghost function Within(ids: set<ChunkId>, rs: set<string>): set<ChunkId> {
    set c | c in ids && c.runbook in rs
  }

  lemma OneMore(ids: set<ChunkId>, rs: set<string>, r: string)
    requires r !in rs
    ensures |Within(ids, rs + {r})| == |Within(ids, rs)| + |Stored(ids, r)|
  {
    assert Within(ids, rs + {r}) == Within(ids, rs) + Stored(ids, r);
    assert Within(ids, rs) * Stored(ids, r) == {};
  }

  /** What a changed runbook adds to the run's totals. */
  lemma Share(s: Store, now: Store, corpus: Corpus, r: string)
    requires WellNamed(corpus) && r in Changed(corpus, s.manifest) && Same(s, now, r)
    ensures Stored(ToEmbed(s, corpus), r) == Produced(corpus[r]) - now.index
    ensures Stored(ToDelete(s, corpus), r) == Stored(now.index, r) - Produced(corpus[r])
  {
    forall c: ChunkId | c.runbook == r ensures c in s.index <==> c in now.index {
      assert c in Stored(s.index, r) <==> c in s.index;
      assert c in Stored(now.index, r) <==> c in now.index;
    }
  }

  lemma Everything(s: Store, corpus: Corpus)
    ensures ToDelete(s, corpus)
            == Within(ToDelete(s, corpus), Removed(corpus, s.manifest)) + Within(ToDelete(s, corpus), Changed(corpus, s.manifest))
    ensures |ToDelete(s, corpus)|
            == |Within(ToDelete(s, corpus), Removed(corpus, s.manifest))| + |Within(ToDelete(s, corpus), Changed(corpus, s.manifest))|
  {
    var out := Within(ToDelete(s, corpus), Removed(corpus, s.manifest));
    var edited := Within(ToDelete(s, corpus), Changed(corpus, s.manifest));
    assert out * edited == {};
    assert ToDelete(s, corpus) == out + edited;
  }

  /** Removing other runbooks does not change what the changed ones need. */
  lemma SameWork(s: Store, now: Store, corpus: Corpus)
    requires WellNamed(corpus) && forall r :: r in corpus ==> Same(s, now, r)
    ensures ToEmbed(now, corpus) == ToEmbed(s, corpus)
    ensures Within(ToDelete(now, corpus), Changed(corpus, s.manifest)) == Within(ToDelete(s, corpus), Changed(corpus, s.manifest))
  {
    assert Changed(corpus, now.manifest) == Changed(corpus, s.manifest);
    forall c: ChunkId | c.runbook in corpus ensures c in s.index <==> c in now.index {
      assert c in Stored(s.index, c.runbook) <==> c in s.index;
      assert c in Stored(now.index, c.runbook) <==> c in now.index;
    }
  }

  // One runbook after another, as far as `done`.

  ghost predicate RemovedAt(s: Store, t: Store, done: set<string>, r: string) {
    if r in done then Gone(t, r) else Same(s, t, r)
  }

  ghost predicate RemovedUpTo(s: Store, t: Store, done: set<string>) {
    forall r :: RemovedAt(s, t, done, r)
  }

  ghost predicate IndexedAt(s: Store, t: Store, corpus: Corpus, done: set<string>, r: string) {
    if r in done && r in corpus then Indexed(t, r, corpus[r]) else Same(s, t, r)
  }

  ghost predicate IndexedUpTo(s: Store, t: Store, corpus: Corpus, done: set<string>) {
    forall r :: IndexedAt(s, t, corpus, done, r)
  }

  ghost predicate OthersSame(s: Store, t: Store, r: string) {
    forall q :: q != r ==> Same(s, t, q)
  }

  lemma RemovedNext(s: Store, t: Store, u: Store, corpus: Corpus, done: set<string>, r: string, whole: bool)
    requires RemovedUpTo(s, t, done) && done <= Removed(corpus, s.manifest) && r in Removed(corpus, s.manifest) && r !in done
    requires (if whole then Gone(u, r) else PartlyRemoved(t, u, r)) && OthersSame(t, u, r)
    ensures whole ==> RemovedUpTo(s, u, done + {r})
    ensures CutFrom(s, u, corpus)
  {
    forall q ensures Allowed(s, u, corpus, q)
             ensures whole ==> RemovedAt(s, u, done + {r}, q)
    {
      assert RemovedAt(s, t, done, q);
      if q != r { assert Same(t, u, q); }
    }
  }

  lemma IndexedNext(s: Store, t: Store, u: Store, corpus: Corpus, done: set<string>, r: string, whole: bool)
    requires done <= Changed(corpus, s.manifest) && IndexedUpTo(s, t, corpus, done)
    requires r in Changed(corpus, s.manifest) && r !in done
    requires (if whole then Indexed(u, r, corpus[r]) else Midway(t, u, r, corpus[r])) && OthersSame(t, u, r)
    ensures whole ==> IndexedUpTo(s, u, corpus, done + {r})
    ensures IndexingCut(s, u, corpus, Changed(corpus, s.manifest))
  {
    forall q ensures IndexingCutAt(s, u, corpus, Changed(corpus, s.manifest), q)
             ensures whole ==> IndexedAt(s, u, corpus, done + {r}, q)
    {
      assert IndexedAt(s, t, corpus, done, q);
      if q != r { assert Same(t, u, q); }
    }
  }

  /** A cut among the changed runbooks. */
  ghost predicate IndexingCutAt(s: Store, t: Store, corpus: Corpus, changed: set<string>, r: string) {
    if r in changed && r in corpus then Midway(s, t, r, corpus[r]) || Indexed(t, r, corpus[r]) else Same(s, t, r)
  }

  ghost predicate IndexingCut(s: Store, t: Store, corpus: Corpus, changed: set<string>) {
    forall r :: IndexingCutAt(s, t, corpus, changed, r)
  }

  /** A cut between the two halves of a run. */
  lemma HalfWay(s: Store, t: Store, corpus: Corpus)
    requires RemovedUpTo(s, t, Removed(corpus, s.manifest))
    ensures CutFrom(s, t, corpus) && Changed(corpus, t.manifest) == Changed(corpus, s.manifest)
    ensures forall r :: r in corpus ==> Same(s, t, r)
  {
    forall r | r in corpus ensures Same(s, t, r) { assert RemovedAt(s, t, Removed(corpus, s.manifest), r); }
    forall r ensures Allowed(s, t, corpus, r) { assert RemovedAt(s, t, Removed(corpus, s.manifest), r); }
  }

  lemma BothHalves(s: Store, t: Store, u: Store, corpus: Corpus)
    requires RemovedUpTo(s, t, Removed(corpus, s.manifest)) && IndexingCut(t, u, corpus, Changed(corpus, s.manifest))
    ensures CutFrom(s, u, corpus)
    ensures IndexedUpTo(t, u, corpus, Changed(corpus, s.manifest)) ==> CompletedFrom(s, u, corpus)
  {
    forall r ensures Allowed(s, u, corpus, r)
             ensures IndexedUpTo(t, u, corpus, Changed(corpus, s.manifest)) ==> Settled(s, u, corpus, r)
    {
      assert RemovedAt(s, t, Removed(corpus, s.manifest), r);
      assert IndexingCutAt(t, u, corpus, Changed(corpus, s.manifest), r);
      if IndexedUpTo(t, u, corpus, Changed(corpus, s.manifest)) {
        assert IndexedAt(t, u, corpus, Changed(corpus, s.manifest), r);
      }
    }
  }

  lemma NothingDoneYet(s: Store, corpus: Corpus, changed: set<string>)
    ensures RemovedUpTo(s, s, {}) && IndexedUpTo(s, s, corpus, {}) && IndexingCut(s, s, corpus, changed)
  {
  }

  lemma DoneIsACut(s: Store, t: Store, corpus: Corpus, changed: set<string>)
    requires IndexedUpTo(s, t, corpus, changed)
    ensures IndexingCut(s, t, corpus, changed)
  {
    forall r ensures IndexingCutAt(s, t, corpus, changed, r) { assert IndexedAt(s, t, corpus, changed, r); }
  }

  lemma DoneIsParsed(s: Store, t: Store, corpus: Corpus, changed: set<string>)
    requires IndexedUpTo(s, t, corpus, changed) && changed <= corpus.Keys
    ensures forall r :: r in changed ==> corpus[r].Parsed?
  {
    forall r | r in changed ensures corpus[r].Parsed? { assert IndexedAt(s, t, corpus, changed, r); }
  }

  lemma RemovalTotals(s: Store, t: Store, corpus: Corpus, done: set<string>, r: string)
    requires r in Removed(corpus, s.manifest) && r !in done && Same(s, t, r)
    ensures |Within(ToDelete(s, corpus), done + {r})| == |Within(ToDelete(s, corpus), done)| + |Stored(t.index, r)|
    ensures |done + {r}| == |done| + 1
  {
    OneMore(ToDelete(s, corpus), done, r);
    assert Stored(ToDelete(s, corpus), r) == Stored(s.index, r);
  }

  lemma IndexingTotals(s: Store, t: Store, corpus: Corpus, done: set<string>, r: string)
    requires WellNamed(corpus) && r in Changed(corpus, s.manifest) && r !in done && Same(s, t, r)
    ensures |Within(ToEmbed(s, corpus), done + {r})| == |Within(ToEmbed(s, corpus), done)| + |Produced(corpus[r]) - t.index|
    ensures |Within(ToDelete(s, corpus), done + {r})|
            == |Within(ToDelete(s, corpus), done)| + |Stored(t.index, r) - Produced(corpus[r])|
    ensures |done + {r}| == |done| + 1
  {
    OneMore(ToEmbed(s, corpus), done, r);
    OneMore(ToDelete(s, corpus), done, r);
    Share(s, t, corpus, r);
  }

  datatype Counts = Counts(embedded: nat, deleted: nat, processed: nat, skipped: nat, removed: nat)

  class RunbookIndexer {
    var index: set<ChunkId>
    var manifest: map<string, string>
    /** Whether the process has died before one of its writes. */
    ghost var died: bool

    constructor (index: set<ChunkId>, manifest: map<string, string>)
      ensures this.index == index && this.manifest == manifest && !died
    {
      this.index, this.manifest, died := index, manifest, false;
    }

    ghost function State(): Store
      reads this
    {
      Store(index, manifest)
    }

    /** Delete `ids` one by one; `false` when the process died on the way. */
    method DeleteChunks(ids: set<ChunkId>) returns (done: bool)
      requires ids <= index && !died
      modifies this`index, this`died
      ensures done <==> !died
      ensures done ==> index == old(index) - ids
      ensures old(index) - ids <= index <= old(index)
    {
      var left := ids;
      while left != {}
        invariant left <= ids && index == old(index) - (ids - left) && !died
        decreases |left|
      {
        if * {
          died := true;
          return false;
        }
        var c :| c in left;
        index, left := index - {c}, left - {c};
      }
      return true;
    }

    /** Store a chunk for each of `ids`, one by one. */
    method IndexChunks(ids: set<ChunkId>) returns (done: bool)
      requires !died
      modifies this`index, this`died
      ensures done <==> !died
      ensures done ==> index == old(index) + ids
      ensures old(index) <= index <= old(index) + ids
    {
      var left := ids;
      while left != {}
        invariant left <= ids && index == old(index) + (ids - left) && !died
        decreases |left|
      {
        if * {
          died := true;
          return false;
        }
        var c :| c in left;
        index, left := index + {c}, left - {c};
      }
      return true;
    }

    /** New chunks first, stale ones next. */
    method ReplaceChunks(r: string, produced: set<ChunkId>) returns (done: bool)
      requires !died && forall c :: c in produced ==> c.runbook == r
      modifies this`index, this`died
      ensures done <==> !died
      ensures done ==> Stored(index, r) == produced
      ensures Stored(old(index), r) <= Stored(index, r) || produced <= Stored(index, r)
      ensures Stored(index, r) <= Stored(old(index), r) + produced
      ensures forall q :: q != r ==> Stored(index, q) == Stored(old(index), q)
    {
      var stored := Stored(index, r);
      done := IndexChunks(produced - stored);
      Added(old(index), index, r, produced - stored, done);
      if !done { return; }
      ghost var grown := index;
      done := DeleteChunks(stored - produced);
      Dropped(grown, index, r, stored - produced, done);
    }

    /** The chunks, and the manifest last. */
    method IndexRunbook(r: string, source: Source, counts: Counts) returns (done: bool, after: Counts)
      requires !died && (source.Parsed? ==> forall c :: c in source.chunks ==> c.runbook == r)
      modifies this
      ensures done <==> !died && source.Parsed?
      ensures source.Malformed? ==> !died && State() == old(State())
      ensures done ==> Indexed(State(), r, source)
      ensures !done ==> Midway(old(State()), State(), r, source)
      ensures OthersSame(old(State()), State(), r)
      ensures done ==>
        after == counts.(embedded := counts.embedded + |Produced(source) - old(index)|,
                         deleted := counts.deleted + |Stored(old(index), r) - Produced(source)|,
                         processed := counts.processed + 1)
    {
      after := counts;
      if source.Malformed? { return false, after; }
      var produced := Produced(source);
      var stored := Stored(index, r);
      assert produced - stored == produced - index;
      done := ReplaceChunks(r, produced);
      if !done { return; }
      if * {
        died := true;
        return false, after;
      }
      manifest := manifest[r := source.digest];
      after := counts.(embedded := counts.embedded + |produced - stored|, deleted := counts.deleted + |stored - produced|,
                       processed := counts.processed + 1);
    }

    method RemoveRunbook(r: string, counts: Counts) returns (done: bool, after: Counts)
      requires r in manifest && !died
      modifies this
      ensures done <==> !died
      ensures done ==> Gone(State(), r)
      ensures !done ==> PartlyRemoved(old(State()), State(), r)
      ensures OthersSame(old(State()), State(), r)
      ensures done ==> after == counts.(deleted := counts.deleted + |Stored(old(index), r)|, removed := counts.removed + 1)
    {
      after := counts;
      var stored := Stored(index, r);
      done := DeleteChunks(stored);
      Dropped(old(index), index, r, stored, done);
      if !done { return; }
      if * {
        died := true;
        return false, after;
      }
      manifest := manifest - {r};
      after := counts.(deleted := counts.deleted + |stored|, removed := counts.removed + 1);
    }

    method RemoveAll(corpus: Corpus, removed: set<string>, counts: Counts) returns (done: bool, after: Counts)
      requires removed == Removed(corpus, manifest) && !died
      modifies this
      ensures done <==> !died
      ensures CutFrom(old(State()), State(), corpus)
      ensures done ==> RemovedUpTo(old(State()), State(), removed)
      ensures done ==> after == counts.(deleted := counts.deleted + |Within(ToDelete(old(State()), corpus), removed)|,
                                        removed := counts.removed + |removed|)
    {
      ghost var start := State();
      var seen: set<string> := {};
      after := counts;
      assert Within(ToDelete(start, corpus), {}) == {};
      NothingDoneYet(start, corpus, {});
      while seen != removed
        invariant seen <= removed && !died
        invariant RemovedUpTo(start, State(), seen)
        invariant after == counts.(deleted := counts.deleted + |Within(ToDelete(start, corpus), seen)|,
                                   removed := counts.removed + |seen|)
        decreases removed - seen
      {
        var r :| r in removed && r !in seen;
        ghost var before := State();
        assert RemovedAt(start, before, seen, r);
        RemovalTotals(start, before, corpus, seen, r);
        done, after := RemoveRunbook(r, after);
        RemovedNext(start, before, State(), corpus, seen, r, done);
        if !done { return; }
        seen := seen + {r};
      }
      HalfWay(start, State(), corpus);
      return true, after;
    }

    /** One more of the changed runbooks, `seen` being done. */
    method IndexNext(ghost start: Store, corpus: Corpus, ghost seen: set<string>, r: string, counts: Counts)
      returns (done: bool, after: Counts)
      requires WellNamed(corpus) && !died && IndexedUpTo(start, State(), corpus, seen)
      requires seen <= Changed(corpus, start.manifest) && r in Changed(corpus, start.manifest) && r !in seen
      modifies this
      ensures done <==> !died && corpus[r].Parsed?
      ensures IndexingCut(start, State(), corpus, Changed(corpus, start.manifest))
      ensures done ==> IndexedUpTo(start, State(), corpus, seen + {r})
      ensures done ==>
        && after.embedded == counts.embedded + |Within(ToEmbed(start, corpus), seen + {r})| - |Within(ToEmbed(start, corpus), seen)|
        && after.deleted == counts.deleted + |Within(ToDelete(start, corpus), seen + {r})| - |Within(ToDelete(start, corpus), seen)|
        && after.processed == counts.processed + 1 && after.skipped == counts.skipped && after.removed == counts.removed
    {
      ghost var before := State();
      assert IndexedAt(start, before, corpus, seen, r);
      IndexingTotals(start, before, corpus, seen, r);
      done, after := IndexRunbook(r, corpus[r], counts);
      IndexedNext(start, before, State(), corpus, seen, r, done);
    }

    method IndexAll(corpus: Corpus, changed: set<string>, counts: Counts) returns (done: bool, after: Counts)
      requires WellNamed(corpus) && changed == Changed(corpus, manifest) && !died
      modifies this
      ensures done <==> !died && forall r :: r in changed ==> corpus[r].Parsed?
      ensures IndexingCut(old(State()), State(), corpus, changed)
      ensures done ==> IndexedUpTo(old(State()), State(), corpus, changed)
      ensures done ==> after == counts.(embedded := counts.embedded + |ToEmbed(old(State()), corpus)|,
                                        deleted := counts.deleted + |Within(ToDelete(old(State()), corpus), changed)|,
                                        processed := counts.processed + |changed|)
    {
      ghost var start := State();
      var seen: set<string> := {};
      after := counts;
      assert Within(ToDelete(start, corpus), {}) == {} == Within(ToEmbed(start, corpus), {});
      NothingDoneYet(start, corpus, changed);
      while seen != changed
        invariant seen <= changed && !died
        invariant IndexedUpTo(start, State(), corpus, seen)
        invariant after == counts.(embedded := counts.embedded + |Within(ToEmbed(start, corpus), seen)|,
                                   deleted := counts.deleted + |Within(ToDelete(start, corpus), seen)|,
                                   processed := counts.processed + |seen|)
        decreases changed - seen
      {
        var r :| r in changed && r !in seen;
        done, after := IndexNext(start, corpus, seen, r, after);
        if !done { return; }
        seen := seen + {r};
      }
      DoneIsACut(start, State(), corpus, changed);
      DoneIsParsed(start, State(), corpus, changed);
      assert Within(ToEmbed(start, corpus), changed) == ToEmbed(start, corpus);
      return true, after;
    }

    /** One run: removed runbooks first, then the changed ones; unchanged files are not looked at. It
        completes unless the process dies or a changed file cannot be chunked. */
    method Run(corpus: Corpus) returns (done: bool, counts: Counts)
      requires WellNamed(corpus) && !died
      modifies this
      ensures done <==> !died && forall r :: r in Changed(corpus, old(manifest)) ==> corpus[r].Parsed?
      ensures CutFrom(old(State()), State(), corpus)
      ensures done ==> CompletedFrom(old(State()), State(), corpus)
      ensures done ==>
        counts == Counts(|ToEmbed(old(State()), corpus)|, |ToDelete(old(State()), corpus)|,
                         |Changed(corpus, old(manifest))|, |corpus.Keys - Changed(corpus, old(manifest))|,
                         |Removed(corpus, old(manifest))|)
    {
      ghost var start := State();
      var changed, removed := Changed(corpus, manifest), Removed(corpus, manifest);
      counts := Counts(0, 0, 0, |corpus.Keys - changed|, 0);
      done, counts := RemoveAll(corpus, removed, counts);
      if !done { return; }
      ghost var midway := State();
      HalfWay(start, midway, corpus);
      SameWork(start, midway, corpus);
      Everything(start, corpus);
      done, counts := IndexAll(corpus, changed, counts);
      BothHalves(start, midway, State(), corpus);
    }
  }
}
