/**
 Restoring a log: which files its pages leave in the directory, how their sorted listing tells them
 apart, and what reading them back gives, for a directory that appends have written and for one
 that has been restored before.
 */
module Restore {
  import opened Types
  import opened Filenames
  import opened Offsets
  import opened PagedLog

  /** A closed page as a value: where it starts and what it holds. */
  datatype Chunk = Chunk(start: nat, entries: seq<Entry>)

  /** The chunks hold `contents` between them, without gaps, and none of them is empty. */
  ghost predicate Contiguous(chunks: seq<Chunk>, contents: seq<Entry>) {
    if chunks == [] then contents == []
    else
      var last := chunks[|chunks| - 1];
      && last.entries != [] && last.start + |last.entries| == |contents| && contents[last.start..] == last.entries
      && Contiguous(chunks[..|chunks| - 1], contents[..last.start])
  }

  function NameOf(c: Chunk): string {
    ClosedName(c.start, c.start + |c.entries|)
  }

  function Names(chunks: seq<Chunk>): (r: seq<string>)
    ensures |r| == |chunks| && forall i :: 0 <= i < |r| ==> r[i] == NameOf(chunks[i])
  {
    seq(|chunks|, i requires 0 <= i < |chunks| => NameOf(chunks[i]))
  }

  ghost function ChunkFiles(chunks: seq<Chunk>): FileMap {
    if chunks == [] then map[]
    else
      var last := chunks[|chunks| - 1];
      ChunkFiles(chunks[..|chunks| - 1])[NameOf(last) := last.entries]
  }

  ghost function ChunksOf(pages: seq<Page>): (r: seq<Chunk>)
    reads pages`records
    ensures |r| == |pages| && forall i :: 0 <= i < |r| ==> r[i] == Chunk(pages[i].start, EntriesOf(pages[i].records))
  {
    if pages == [] then []
    else
      var last := pages[|pages| - 1];
      ChunksOf(pages[..|pages| - 1]) + [Chunk(last.start, EntriesOf(last.records))]
  }

  lemma {:induction false} FilesOfChunks(pages: seq<Page>)
    ensures Files(pages) == ChunkFiles(ChunksOf(pages))
  {
    if pages != [] {
      var before := pages[..|pages| - 1];
      FilesOfChunks(before);
      assert ChunksOf(pages)[..|before|] == ChunksOf(before);
    }
  }

  lemma {:induction false} ClosedContiguous(pages: seq<Page>, contents: seq<Entry>)
    requires Closed(pages, contents)
    ensures Contiguous(ChunksOf(pages), contents)
  {
    if pages != [] {
      var n := |pages| - 1;
      ClosedContiguous(pages[..n], contents[..pages[n].start]);
      assert ChunksOf(pages)[..n] == ChunksOf(pages[..n]);
    }
  }

  // ---------------------------------------------------------------- the listing

  lemma {:induction false} ChunkBounds(chunks: seq<Chunk>, contents: seq<Entry>, i: nat)
    requires Contiguous(chunks, contents) && i < |chunks|
    ensures chunks[i].start + |chunks[i].entries| <= |contents| && chunks[i].entries != []
  {
    var n := |chunks| - 1;
    if i < n {
      ChunkBounds(chunks[..n], contents[..chunks[n].start], i);
    }
  }

  lemma {:induction false} ChunkOrder(chunks: seq<Chunk>, contents: seq<Entry>, i: nat, j: nat)
    requires Contiguous(chunks, contents) && i < j < |chunks|
    ensures chunks[i].start < chunks[j].start < |contents|
  {
    var n := |chunks| - 1;
    ChunkBounds(chunks, contents, j);
    if j < n {
      ChunkOrder(chunks[..n], contents[..chunks[n].start], i, j);
    } else {
      ChunkBounds(chunks[..n], contents[..chunks[n].start], i);
    }
  }

  /** The files that a mirrored log's directory holds, metadata aside, are those of its chunks and the open one. */
  ghost function Directory(chunks: seq<Chunk>, start: nat, tail: seq<Entry>): FileMap {
    ChunkFiles(chunks)[OpenName(start) := tail]
  }

  /** Chunk names are ordered by where the chunks start. */
  lemma NameOrder(a: Chunk, b: Chunk)
    requires a.start < b.start < 0x8000_0000
    ensures Less(NameOf(a), NameOf(b)) && NameOf(a) != NameOf(b)
  {
    ClosedNamesSort(a.start, a.start + |a.entries|, b.start, b.start + |b.entries|);
    LessAsymmetric(NameOf(a), NameOf(b));
  }

  lemma {:induction false} ChunkFileAt(chunks: seq<Chunk>, contents: seq<Entry>, i: nat)
    requires Contiguous(chunks, contents) && i < |chunks| && |contents| < 0x8000_0000
    ensures NameOf(chunks[i]) in ChunkFiles(chunks) && ChunkFiles(chunks)[NameOf(chunks[i])] == chunks[i].entries
  {
    var n := |chunks| - 1;
    if i < n {
      ChunkFileAt(chunks[..n], contents[..chunks[n].start], i);
      ChunkOrder(chunks, contents, i, n);
      NameOrder(chunks[i], chunks[n]);
    }
  }

  lemma {:induction false} ChunkFileNames(chunks: seq<Chunk>, name: string)
    ensures name in ChunkFiles(chunks) <==> name in Names(chunks)
  {
    if chunks != [] {
      var n := |chunks| - 1;
      ChunkFileNames(chunks[..n], name);
      assert Names(chunks) == Names(chunks[..n]) + [NameOf(chunks[n])];
    }
  }

  /** The metadata files that a listing may hold besides the log's own, in order. */
  function Metadata(listing: seq<string>): (r: seq<string>)
    ensures forall x :: x in r <==> x in listing && IsMetadata(x)
  {
    (if "metadata1" in listing then ["metadata1"] else []) + (if "metadata2" in listing then ["metadata2"] else [])
  }

  /** The open files of a listing, in order. */
  function Opens(listing: seq<string>): (r: seq<string>)
    ensures forall x :: x in r <==> x in listing && IsOpenName(x)
  {
    if listing == [] then []
    else
      var n := |listing| - 1;
      Opens(listing[..n]) + if IsOpenName(listing[n]) then [listing[n]] else []
  }

  lemma {:induction false} OpensSorted(listing: seq<string>)
    requires Sorted(listing)
    ensures Sorted(Opens(listing))
  {
    if listing != [] {
      var n := |listing| - 1;
      OpensSorted(listing[..n]);
      forall x | x in Opens(listing[..n]) ensures Less(x, listing[n]) {
        var i :| 0 <= i < n && listing[..n][i] == x;
      }
    }
  }

  ghost function Expected(chunks: seq<Chunk>, listing: seq<string>): seq<string> {
    Names(chunks) + Metadata(listing) + Opens(listing)
  }

  lemma NamesSorted(chunks: seq<Chunk>, contents: seq<Entry>)
    requires Contiguous(chunks, contents) && |contents| < 0x8000_0000
    ensures Sorted(Names(chunks))
  {
    forall i, j | 0 <= i < j < |chunks| ensures Less(NameOf(chunks[i]), NameOf(chunks[j])) {
      ChunkOrder(chunks, contents, i, j);
      NameOrder(chunks[i], chunks[j]);
    }
  }

  lemma MetadataSorted(listing: seq<string>)
    ensures Sorted(Metadata(listing))
  {
  }

  lemma SortedJoins(a: seq<string>, b: seq<string>)
    requires Sorted(a) && Sorted(b)
    requires forall x, y :: x in a && y in b ==> Less(x, y)
    ensures Sorted(a + b)
  {
  }

  lemma ExpectedSorted(chunks: seq<Chunk>, contents: seq<Entry>, listing: seq<string>)
    requires Contiguous(chunks, contents) && |contents| < 0x8000_0000 && Sorted(listing)
    ensures Sorted(Expected(chunks, listing))
  {
    var names, metas, opens := Names(chunks), Metadata(listing), Opens(listing);
    NamesSorted(chunks, contents);
    MetadataSorted(listing);
    OpensSorted(listing);
    forall i | 0 <= i < |chunks| ensures forall m :: IsMetadata(m) ==> Less(names[i], m) {
      forall m | IsMetadata(m) ensures Less(names[i], m) {
        KindsSort(chunks[i].start, chunks[i].start + |chunks[i].entries|, m, 0);
      }
    }
    forall x | x in opens
      ensures (forall m :: m in metas ==> Less(m, x)) && (forall i :: 0 <= i < |chunks| ==> Less(names[i], x))
    {
      OpenSorts(x);
    }
    SortedJoins(names, metas);
    SortedJoins(names + metas, opens);
  }

  /** The file is that of the next closed page. */
  ghost predicate IsChunkFile(files: FileMap, name: string, c: Chunk) {
    !IsMetadata(name) && !IsOpenName(name) && name == NameOf(c) && name in files && files[name] == c.entries
  }

  /** A directory, the closed pages it was made from, what they hold, and the name and entries of the open file. */
  datatype Layout = Layout(files: FileMap, chunks: seq<Chunk>, base: seq<Entry>, last: string, tail: seq<Entry>)

  /**
   The directory holds the files of the closed pages and of the open page. Any other file is an open
   one without entries, as a restore creates it.
   */
  ghost predicate Laid(d: Layout) {
    && Contiguous(d.chunks, d.base) && |d.base| < 0x8000_0000 && d.last == OpenName(|d.base|)
    && (forall i :: 0 <= i < |d.chunks| ==> IsChunkFile(d.files, NameOf(d.chunks[i]), d.chunks[i]))
    && d.last in d.files && d.files[d.last] == d.tail && IsOpenName(d.last)
    && (forall x :: x in d.files ==> x in Names(d.chunks) || IsOpenName(x))
    && (forall x :: x in d.files && IsOpenName(x) && x != d.last ==> d.files[x] == [])
    && (Clean(d) || Reused(d))
  }

  /** There is no other open file. */
  ghost predicate Clean(d: Layout) {
    forall x :: x in d.files && IsOpenName(x) ==> x == d.last
  }

  /** There is one for the first page, which sorts before all others. */
  ghost predicate Reused(d: Layout) {
    var first := OpenName(0);
    && first in d.files && first != d.last && IsOpenName(first)
    && forall x :: x in d.files && IsOpenName(x) && x != first ==> Less(first, x)
  }

  /** The listing is the sorted directory, which may also hold metadata files. */
  ghost predicate Lists(listing: seq<string>, files: FileMap) {
    && Sorted(listing)
    && (forall x :: x in files ==> x in listing)
    && (forall x :: x in listing && !IsMetadata(x) ==> x in files)
  }

  /** Sorting the directory lists the closed pages in order, then the metadata, then the open files. */
  lemma ListingIs(d: Layout, listing: seq<string>)
    requires Laid(d) && Lists(listing, d.files)
    ensures listing == Expected(d.chunks, listing)
  {
    ExpectedSorted(d.chunks, d.base, listing);
    forall x ensures x in listing <==> x in Expected(d.chunks, listing) {
      if x in Names(d.chunks) {
        var i :| 0 <= i < |d.chunks| && x == Names(d.chunks)[i];
        assert IsChunkFile(d.files, NameOf(d.chunks[i]), d.chunks[i]);
      }
    }
    SortedUnique(listing, Expected(d.chunks, listing));
  }

  /** The directory of a mirrored log holds no file besides those of its pages. */
  lemma DirectoryClean(d: Layout)
    requires Contiguous(d.chunks, d.base) && |d.base| < 0x8000_0000 && d.last == OpenName(|d.base|)
    requires d.files == Directory(d.chunks, |d.base|, d.tail)
    ensures Laid(d) && Clean(d)
  {
    OpenNameOpens(|d.base|);
    forall i | 0 <= i < |d.chunks| ensures IsChunkFile(d.files, NameOf(d.chunks[i]), d.chunks[i]) {
      KindsSort(d.chunks[i].start, d.chunks[i].start + |d.chunks[i].entries|, "metadata1", |d.base|);
      ChunkFileAt(d.chunks, d.base, i);
    }
    forall x | x in d.files && x != d.last ensures x in Names(d.chunks) && !IsOpenName(x) {
      ChunkFileNames(d.chunks, x);
      var i :| 0 <= i < |d.chunks| && x == Names(d.chunks)[i];
    }
  }

  // ---------------------------------------------------------------- reading the directory back

  /**
   The page of a file: its entries are those of the file, and it has counted no bytes of them.
   Making a page creates an open file for it, or leaves one that is there.
   */
  method LoadPage(log: PersistedLog, name: string, start: nat, isOpen: bool) returns (page: Page)
    modifies log`files
    ensures log.files == AfterOpen(old(log.files), start)
    ensures fresh(page) && page.start == start && page.isOpen == isOpen && page.maxFileSize == log.maxFileSize
    ensures EntriesOf(page.records) == Content(old(log.files), name)
    ensures page.end == page.start + |page.records| && page.byteOffset == 0
  {
    var records := LoadLogEntries(log.size, Content(log.files, name));
    page := new Page(start, isOpen, log.maxFileSize);
    log.files := AfterOpen(log.files, start);
    page.end := page.start + |records|;
    page.records := records;
  }

  /** A page holds what a chunk does, where the chunk does. */
  ghost predicate Matches(page: Page, c: Chunk)
    reads page`records
  {
    page.start == c.start && EntriesOf(page.records) == c.entries
  }

  /** Where a closed file's page starts, read from its name. */
  method ParseStart(name: string, ghost c: Chunk) returns (start: nat)
    requires name == NameOf(c) && c.start < 0x8000_0000
    ensures start == c.start
  {
    ParsedClosedName(c.start, c.start + |c.entries|);
    start := ParsedStart(name);
  }

  /** Restores the page of a closed file; making the page also creates an open file for it. */
  method RestoreClosed(log: PersistedLog, name: string, ghost c: Chunk) returns (ghost page: Page)
    requires log.Readable() && !log.listed && c.start == |log.contents| < 0x8000_0000 && c.entries != []
    requires name == NameOf(c) && Content(log.files, name) == c.entries
    modifies log
    ensures log.Readable() && !log.listed && log.contents == old(log.contents) + c.entries
    ensures log.files == AfterOpen(old(log.files), c.start) && fresh(log.repr - old(log.repr))
    ensures fresh(page) && log.closed == old(log.closed) + [page] && Matches(page, c)
  {
    var start := ParseStart(name, c);
    var p := LoadPage(log, name, start, false);
    log.ListClosedPage(p);
    assert log.repr == old(log.repr) + {p};
    page := p;
  }

  /** No file has gone and none has changed. */
  ghost predicate FilesKept(files: FileMap, files': FileMap) {
    forall x :: x in files ==> x in files' && files'[x] == files[x]
  }

  lemma OpeningKeeps(files: FileMap, start: nat)
    ensures FilesKept(files, AfterOpen(files, start))
  {
  }

  lemma KeptOn(a: FileMap, b: FileMap, c: FileMap)
    requires FilesKept(a, b) && FilesKept(b, c)
    ensures FilesKept(a, c)
  {
  }

  /** Restores a page from an open file. */
  method RestoreOpen(log: PersistedLog, name: string)
    requires log.Counted() && name in log.files
    modifies log
    ensures log.Counted() && log.contents == old(log.contents) + old(log.files[name]) && fresh(log.repr - old(log.repr))
    ensures log.files == AfterOpen(old(log.files), |old(log.contents)|) && log.closed == old(log.closed)
    ensures FilesKept(old(log.files), log.files)
    ensures Matches(log.open, Chunk(|old(log.contents)|, old(log.files[name]))) && log.open.byteOffset == 0
    ensures old(log.Readable() && !log.listed) ==> log.Valid()
    ensures old(log.Occupied()) ==>
      if old(log.files[name]) == [] then log.Occupied() && log.Unlisted() else log.Misses(|old(log.contents)|)
    ensures forall i :: old(log.Misses(i)) ==> log.Misses(i)
  {
    OpeningKeeps(log.files, log.logSize);
    var page := LoadPage(log, name, log.logSize, true);
    log.AddOpenPage(page);
  }

  ghost function EndOf(chunks: seq<Chunk>, k: nat): nat
    requires k <= |chunks|
  {
    if k == 0 then 0 else chunks[k - 1].start + |chunks[k - 1].entries|
  }

  /** Each chunk continues where the one before it ends. */
  lemma {:induction false} ChunkContinues(chunks: seq<Chunk>, contents: seq<Entry>, k: nat)
    requires Contiguous(chunks, contents) && k < |chunks|
    ensures chunks[k].start == EndOf(chunks, k) <= EndOf(chunks, k + 1) <= |contents|
    ensures contents[..EndOf(chunks, k + 1)] == contents[..EndOf(chunks, k)] + chunks[k].entries
  {
    var n := |chunks| - 1;
    if k < n {
      ChunkContinues(chunks[..n], contents[..chunks[n].start], k);
      var c := contents[..chunks[n].start];
      assert c[..EndOf(chunks, k + 1)] == contents[..EndOf(chunks, k + 1)];
      assert c[..EndOf(chunks, k)] == contents[..EndOf(chunks, k)];
    } else if k > 0 {
      assert chunks[..n][n - 1] == chunks[k - 1];
    }
  }

  /** The directory once the first `n` chunks are restored: each has got an open file of its own. */
  ghost function Reopened(files: FileMap, chunks: seq<Chunk>, n: nat): FileMap
    requires n <= |chunks|
  {
    if n == 0 then files else AfterOpen(Reopened(files, chunks, n - 1), chunks[n - 1].start)
  }

  /** Restoring changes no file that was there. */
  lemma {:induction false} ReopenedKeeps(files: FileMap, chunks: seq<Chunk>, n: nat, name: string)
    requires n <= |chunks| && name in files
    ensures name in Reopened(files, chunks, n) && Reopened(files, chunks, n)[name] == files[name]
  {
    if n > 0 {
      ReopenedKeeps(files, chunks, n - 1, name);
    }
  }

  lemma {:induction false} ReopenedHas(files: FileMap, chunks: seq<Chunk>, n: nat, i: nat)
    requires i < n <= |chunks|
    ensures OpenName(chunks[i].start) in Reopened(files, chunks, n)
  {
    if i < n - 1 {
      ReopenedHas(files, chunks, n - 1, i);
    }
  }

  /** The pages hold what the first chunks do. */
  ghost predicate AllMatch(pages: seq<Page>, chunks: seq<Chunk>)
    reads pages`records
  {
    |pages| <= |chunks| && forall i :: 0 <= i < |pages| ==> Matches(pages[i], chunks[i])
  }

  lemma AllMatchGrows(pages: seq<Page>, page: Page, chunks: seq<Chunk>)
    requires AllMatch(pages, chunks) && |pages| < |chunks| && Matches(page, chunks[|pages|])
    ensures AllMatch(pages + [page], chunks)
  {
  }

  /** The first `n` closed pages are restored. */
  ghost predicate Progress(log: PersistedLog, d: Layout, n: nat)
    reads log, log.repr, log.closed
  {
    && log.Readable() && !log.listed && n <= |d.chunks| && |log.closed| == n && EndOf(d.chunks, n) <= |d.base|
    && AllMatch(log.closed, d.chunks)
    && log.contents == d.base[..EndOf(d.chunks, n)] && log.files == Reopened(d.files, d.chunks, n)
  }

  /** Restores the next closed page. */
  method RestoreNext(log: PersistedLog, name: string, ghost d: Layout, ghost n: nat)
    requires Contiguous(d.chunks, d.base) && |d.base| < 0x8000_0000
    requires n < |d.chunks| && Progress(log, d, n) && IsChunkFile(d.files, name, d.chunks[n])
    modifies log
    ensures Progress(log, d, n + 1) && fresh(log.repr - old(log.repr))
  {
    ReopenedKeeps(d.files, d.chunks, n, name);
    ChunkContinues(d.chunks, d.base, n);
    ChunkBounds(d.chunks, d.base, n);
    ghost var before := log.closed;
    assert AllMatch(before, d.chunks);
    ghost var page := RestoreClosed(log, name, d.chunks[n]);
    assert AllMatch(before, d.chunks);
    AllMatchGrows(before, page, d.chunks);
  }

  /**
   Every closed page is restored, and a page with the entries `x` as the open one: the log is ready,
   with the same entries and the same page boundaries, but with no bytes counted on its open page.
   */
  ghost predicate RestoredWith(log: PersistedLog, d: Layout, x: seq<Entry>)
    reads log, log.repr, log.closed, log.open
  {
    && log.Valid() && log.contents == d.base + x
    && Matches(log.open, Chunk(|d.base|, x)) && log.open.byteOffset == 0
    && |log.closed| == |d.chunks| && AllMatch(log.closed, d.chunks)
    && log.files == Reopened(d.files, d.chunks, |d.chunks|)
  }

  ghost predicate Restored(log: PersistedLog, d: Layout)
    reads log, log.repr, log.closed, log.open
  {
    RestoredWith(log, d, d.tail)
  }

  lemma ChunksEnd(chunks: seq<Chunk>, base: seq<Entry>)
    requires Contiguous(chunks, base)
    ensures EndOf(chunks, |chunks|) == |base|
  {
  }

  /** No file of the directory has changed. */
  lemma ReopenedKept(d: Layout)
    ensures FilesKept(d.files, Reopened(d.files, d.chunks, |d.chunks|))
  {
    forall x | x in d.files ensures var r := Reopened(d.files, d.chunks, |d.chunks|); x in r && r[x] == d.files[x] {
      ReopenedKeeps(d.files, d.chunks, |d.chunks|, x);
    }
  }

  /**
   Several open files of a directory that was restored before are read. The first of them, one without
   entries, has taken the key of the open page, so that what comes after it is not listed.
   */
  ghost predicate Opening(log: PersistedLog, d: Layout, seen: seq<string>)
    reads log, log.repr, log.indices.Values
  {
    && log.Counted() && FilesKept(d.files, log.files)
    && log.contents == (if d.last in seen then d.base + d.tail else d.base)
    && if d.last in seen && d.tail != [] then log.Misses(|d.base|) else log.Occupied() && log.Unlisted()
  }

  /** Where the restore loop stands after the first `n` closed files and some open ones. */
  ghost predicate Restoring(log: PersistedLog, d: Layout, n: nat, seen: seq<string>)
    reads log, log.repr, log.closed, log.open, log.indices.Values
  {
    if seen == [] then Progress(log, d, n)
    else if |seen| == 1 then RestoredWith(log, d, EntriesIn(d, seen[0]))
    else Opening(log, d, seen)
  }

  /** The entries of an open file: none but in that of the open page. */
  ghost function EntriesIn(d: Layout, name: string): seq<Entry> {
    if name == d.last then d.tail else []
  }

  /** The open file is one that the listing has after those seen; that of the open page is not the first of several. */
  ghost predicate NextOpen(d: Layout, name: string, seen: seq<string>) {
    && IsOpenName(name) && name in d.files && d.files[name] == EntriesIn(d, name) && name !in seen
    && (seen != [] ==> seen[0] != d.last)
  }

  /** One round of the restore loop on an open file. */
  method RestoreOpenFile(log: PersistedLog, name: string, ghost d: Layout, ghost seen: seq<string>)
    requires Contiguous(d.chunks, d.base) && d.last == OpenName(|d.base|) && d.last in d.files
    requires Restoring(log, d, |d.chunks|, seen) && NextOpen(d, name, seen)
    modifies log
    ensures Restoring(log, d, |d.chunks|, seen + [name]) && fresh(log.repr - old(log.repr))
  {
    ReopenedKept(d);
    if seen == [] {
      ChunksEnd(d.chunks, d.base);
      assert d.base[..|d.base|] == d.base;
    } else if |seen| == 1 {
      assert d.base + [] == d.base;
      log.EmptyOccupies();
    }
    ghost var before := log.files;
    RestoreOpen(log, name);
    KeptOn(d.files, before, log.files);
  }

  ghost function SeenWith(seen: seq<string>, name: string): seq<string> {
    if IsOpenName(name) then seen + [name] else seen
  }

  /** What the restore loop finds after the first `n` closed files and some open ones. */
  ghost predicate FileAt(d: Layout, name: string, n: nat, seen: seq<string>) {
    && n <= |d.chunks|
    && if n < |d.chunks| then seen == [] && IsChunkFile(d.files, name, d.chunks[n])
       else if IsMetadata(name) then seen == [] else NextOpen(d, name, seen)
  }

  /** One round of the restore loop. */
  method RestoreFile(log: PersistedLog, name: string, ghost d: Layout, ghost n: nat, ghost seen: seq<string>)
    requires Laid(d) && Restoring(log, d, n, seen) && FileAt(d, name, n, seen)
    modifies log
    ensures Restoring(log, d, Min(n + 1, |d.chunks|), SeenWith(seen, name)) && fresh(log.repr - old(log.repr))
  {
    if IsMetadata(name) {
      MetadataCloses(name);
      return;
    }
    if IsOpenName(name) {
      RestoreOpenFile(log, name, d, seen);
    } else {
      RestoreNext(log, name, d, n);
    }
  }

  lemma SeenNext(listing: seq<string>, k: nat)
    requires k < |listing|
    ensures Opens(listing[..k + 1]) == SeenWith(Opens(listing[..k]), listing[k])
  {
    assert listing[..k + 1][..k] == listing[..k];
  }

  /** No open file comes before the last of the others. */
  lemma OpensLate(chunks: seq<Chunk>, listing: seq<string>, k: nat)
    requires listing == Expected(chunks, listing) && k <= |chunks| + |Metadata(listing)|
    ensures Opens(listing[..k]) == []
  {
    var metas := Metadata(listing);
    forall i | 0 <= i < k ensures !IsOpenName(listing[i]) {
      if i < |chunks| {
        assert listing[i] == NameOf(chunks[i]);
        ClosedNameCloses(chunks[i].start, chunks[i].start + |chunks[i].entries|);
      } else {
        assert listing[i] == metas[i - |chunks|];
        assert listing[i] in metas;
        MetadataCloses(listing[i]);
      }
    }
    if Opens(listing[..k]) != [] {
      assert Opens(listing[..k])[0] in Opens(listing[..k]);
    }
  }

  /** Where there are several open files, that of the open page is not the first. */
  lemma FirstOpen(d: Layout, listing: seq<string>)
    requires Lists(listing, d.files) && Sorted(Opens(listing)) && (Clean(d) || Reused(d)) && |Opens(listing)| >= 2
    ensures Opens(listing)[0] != d.last
  {
    var opens := Opens(listing);
    OpenSorts(opens[0]);
    OpenSorts(opens[1]);
    LessAsymmetric(opens[0], opens[1]);
    if Reused(d) && opens[0] == d.last {
      assert OpenName(0) in listing;
      var i :| 0 <= i < |opens| && opens[i] == OpenName(0);
      LessAsymmetric(opens[0], opens[i]);
    }
  }

  lemma {:induction false} OpensPrefix(listing: seq<string>, k: nat)
    requires k <= |listing|
    ensures Opens(listing[..k]) <= Opens(listing)
  {
    var n := |listing| - 1;
    if k <= n {
      OpensPrefix(listing[..n], k);
      assert listing[..n][..k] == listing[..k];
    } else {
      assert listing[..k] == listing;
    }
  }

  lemma OpenAt(d: Layout, listing: seq<string>, k: nat)
    requires Laid(d) && Lists(listing, d.files) && k < |listing| && IsOpenName(listing[k])
    ensures NextOpen(d, listing[k], Opens(listing[..k]))
  {
    var opens, name := Opens(listing), listing[k];
    OpenSorts(name);
    if name in listing[..k] {
      var i :| 0 <= i < k && listing[i] == name;
      LessAsymmetric(listing[i], listing[k]);
    }
    if Opens(listing[..k]) != [] {
      OpensSorted(listing);
      OpensPrefix(listing, k);
      SeenNext(listing, k);
      OpensPrefix(listing, k + 1);
      FirstOpen(d, listing);
    }
  }

  lemma ListedAt(d: Layout, listing: seq<string>, k: nat)
    requires Laid(d) && Lists(listing, d.files) && listing == Expected(d.chunks, listing) && k < |listing|
    ensures FileAt(d, listing[k], Min(k, |d.chunks|), Opens(listing[..k]))
  {
    var metas := Metadata(listing);
    if k < |d.chunks| + |metas| {
      OpensLate(d.chunks, listing, k);
    }
    if k < |d.chunks| {
      assert IsChunkFile(d.files, NameOf(d.chunks[k]), d.chunks[k]);
    } else if k < |d.chunks| + |metas| {
      assert listing[k] == metas[k - |d.chunks|];
      assert listing[k] in metas;
    } else {
      assert listing[k] == Opens(listing)[k - |d.chunks| - |metas|];
      assert listing[k] in Opens(listing);
      OpenAt(d, listing, k);
      OpenSorts(listing[k]);
    }
  }

  /** Where the restore loop stands after the first `k` files of a listing. */
  ghost predicate RestoredUpTo(log: PersistedLog, d: Layout, listing: seq<string>, k: nat)
    reads log, log.repr, log.closed, log.open, log.indices.Values
  {
    k <= |listing| && Restoring(log, d, Min(k, |d.chunks|), Opens(listing[..k]))
  }

  method RestoreAt(log: PersistedLog, listing: seq<string>, ghost d: Layout, k: nat)
    requires Laid(d) && Lists(listing, d.files) && listing == Expected(d.chunks, listing) && k < |listing|
    requires RestoredUpTo(log, d, listing, k)
    modifies log
    ensures RestoredUpTo(log, d, listing, k + 1)
  {
    ghost var n, seen := Min(k, |d.chunks|), Opens(listing[..k]);
    ListedAt(d, listing, k);
    SeenNext(listing, k);
    RestoreFile(log, listing[k], d, n, seen);
  }

  lemma WholeListing(listing: seq<string>)
    ensures listing[..|listing|] == listing
  {
  }

  /** The restore loop over a listing of the expected form. */
  method RestoreListed(log: PersistedLog, listing: seq<string>, ghost d: Layout)
    requires Laid(d) && Lists(listing, d.files) && listing == Expected(d.chunks, listing) && Progress(log, d, 0)
    modifies log
    ensures Restoring(log, d, |d.chunks|, Opens(listing))
  {
    for k := 0 to |listing|
      invariant RestoredUpTo(log, d, listing, k)
    {
      RestoreAt(log, listing, d, k);
    }
    WholeListing(listing);
  }

  /**
   The entries of the open page are counted, but no listed page holds them; where there are none,
   the open page is not listed.
   */
  ghost predicate Spoiled(log: PersistedLog, base: seq<Entry>, tail: seq<Entry>)
    reads log, log.repr, log.indices.Values
  {
    log.Counted() && log.contents == base + tail && if tail == [] then log.Unlisted() else log.Misses(|base|)
  }

  lemma OpenListed(files: FileMap, listing: seq<string>, name: string)
    requires Lists(listing, files) && name in files && IsOpenName(name)
    ensures name in Opens(listing)
  {
    assert name in listing;
  }

  lemma AllSeen(d: Layout, listing: seq<string>)
    requires Lists(listing, d.files) && d.last in d.files && IsOpenName(d.last) && (Clean(d) || Reused(d))
    ensures d.last in Opens(listing)
    ensures Clean(d) <==> |Opens(listing)| == 1
  {
    OpenListed(d.files, listing, d.last);
    if Reused(d) {
      OpenListed(d.files, listing, OpenName(0));
    }
    if |Opens(listing)| >= 2 {
      OpensSorted(listing);
      FirstOpen(d, listing);
      OpenSorts(Opens(listing)[0]);
    }
  }

  /** Reads every file of the sorted listing back, in order. */
  method RestoreState(log: PersistedLog, listing: seq<string>, ghost d: Layout)
    requires Laid(d) && log.files == d.files && Lists(listing, log.files)
    requires log.Readable() && !log.listed && log.closed == [] && log.contents == []
    modifies log
    ensures if Clean(d) then Restored(log, d) else Spoiled(log, d.base, d.tail)
  {
    ListingIs(d, listing);
    RestoreListed(log, listing, d);
    AllSeen(d, listing);
  }

  /** Two pages cover the same part of the log. */
  ghost predicate SameExtent(a: Page, b: Page)
    reads a, b
  {
    a.start == b.start && a.end == b.end && EntriesOf(a.records) == EntriesOf(b.records)
  }

  /** The directory that a log has written, by its pages. */
  ghost function LayoutOf(log: PersistedLog): Layout
    requires log.open.start <= |log.contents|
    reads log, log.closed, log.open
  {
    Layout(log.files, ChunksOf(log.closed), log.contents[..log.open.start],
           OpenName(log.open.start), EntriesOf(log.open.records))
  }

  lemma MirroredLayout(log: PersistedLog)
    requires log.Valid() && log.Mirrored() && |log.contents| < 0x8000_0000
    ensures Laid(LayoutOf(log)) && Clean(LayoutOf(log))
  {
    var d := LayoutOf(log);
    FilesOfChunks(log.closed);
    ClosedContiguous(log.closed, d.base);
    DirectoryClean(d);
  }

  ghost predicate RestoredFrom(log: PersistedLog, original: PersistedLog)
    reads log, log.repr, log.closed, log.open, original, original.closed, original.open
  {
    original.open.start <= |original.contents| && Restored(log, LayoutOf(original))
  }

  lemma SamePage(original: PersistedLog, log: PersistedLog, i: nat)
    requires original.Valid() && RestoredFrom(log, original) && i < |original.closed|
    ensures i < |log.closed| && SameExtent(log.closed[i], original.closed[i])
  {
    assert Matches(log.closed[i], ChunksOf(original.closed)[i]);
    ClosedPart(log.closed, log.contents[..log.open.start], i);
    ClosedPart(original.closed, original.contents[..original.open.start], i);
  }

  /** A restored log has the same entries on the same pages as the log that wrote the directory. */
  lemma RestoredSame(original: PersistedLog, log: PersistedLog)
    requires original.Valid() && RestoredFrom(log, original)
    ensures log.contents == original.contents && SameExtent(log.open, original.open)
    ensures |log.closed| == |original.closed|
    ensures forall i :: 0 <= i < |original.closed| ==> SameExtent(log.closed[i], original.closed[i])
  {
    assert original.contents[original.open.start..] == EntriesOf(original.open.records);
    forall i | 0 <= i < |original.closed| ensures SameExtent(log.closed[i], original.closed[i]) {
      SamePage(original, log, i);
    }
  }

  /** A new log over a directory, with everything in it read back. */
  method RestoreCopy(size: Entry -> nat, maxFileSize: int, files: FileMap, listing: seq<string>, ghost d: Layout)
    returns (log: PersistedLog)
    requires Laid(d) && files == d.files && Lists(listing, files)
    ensures fresh(log) && if Clean(d) then Restored(log, d) else Spoiled(log, d.base, d.tail)
  {
    log := new PersistedLog.Unread(size, maxFileSize, files);
    RestoreState(log, listing, d);
  }

  /** Restores the directory that a run of appends has written. */
  method RoundTrip(original: PersistedLog, listing: seq<string>) returns (log: PersistedLog)
    requires original.Valid() && original.Mirrored() && |original.contents| < 0x8000_0000
    requires Lists(listing, original.files)
    ensures fresh(log) && RestoredFrom(log, original)
  {
    MirroredLayout(original);
    log := RestoreCopy(original.size, original.maxFileSize, original.files, listing, LayoutOf(original));
  }

  /** What a restore adds to a directory are open files without entries. */
  lemma {:induction false} ReopenedNames(files: FileMap, chunks: seq<Chunk>, n: nat, x: string)
    requires n <= |chunks| && x in Reopened(files, chunks, n) && x !in files
    ensures Reopened(files, chunks, n)[x] == [] && exists start :: x == OpenName(start)
  {
    if x in Reopened(files, chunks, n - 1) {
      ReopenedNames(files, chunks, n - 1, x);
    }
  }

  /** The directory that restoring a directory leaves. */
  ghost function After(d: Layout): Layout {
    d.(files := Reopened(d.files, d.chunks, |d.chunks|))
  }

  lemma AfterReused(d: Layout)
    requires Laid(d) && Clean(d) && d.chunks != []
    ensures Reused(After(d))
  {
    var files := After(d).files;
    ChunkBounds(d.chunks, d.base, 0);
    ChunkContinues(d.chunks, d.base, 0);
    ReopenedHas(d.files, d.chunks, |d.chunks|, 0);
    OpenNamesDiffer(0, |d.base|);
    OpenNameOpens(0);
    forall x | x in files && IsOpenName(x) && x != OpenName(0) ensures Less(OpenName(0), x) {
      if x in d.files {
        ZeroFirst(|d.base|);
      } else {
        ReopenedNames(d.files, d.chunks, |d.chunks|, x);
        var start :| x == OpenName(start);
        ZeroFirst(start);
      }
    }
  }

  lemma AfterLaid(d: Layout)
    requires Laid(d) && Clean(d) && d.chunks != []
    ensures Laid(After(d)) && !Clean(After(d))
  {
    var files := After(d).files;
    AfterReused(d);
    forall x | x in d.files ensures x in files && files[x] == d.files[x] {
      ReopenedKeeps(d.files, d.chunks, |d.chunks|, x);
    }
    forall i | 0 <= i < |d.chunks| ensures IsChunkFile(files, NameOf(d.chunks[i]), d.chunks[i]) {
      assert IsChunkFile(d.files, NameOf(d.chunks[i]), d.chunks[i]);
    }
    forall x | x in files && x !in d.files ensures IsOpenName(x) && files[x] == [] {
      ReopenedNames(d.files, d.chunks, |d.chunks|, x);
      var start :| x == OpenName(start);
      OpenNameOpens(start);
    }
  }

  /**
   A restored directory mirrors the pages, so that restoring it is a round trip again, if and only if
   there was no closed page: the file that a restore creates for a closed page belongs to none.
   */
  lemma MirroredAgainIff(original: PersistedLog, log: PersistedLog)
    requires original.Valid() && original.Mirrored() && RestoredFrom(log, original)
    ensures log.Mirrored() <==> original.closed == []
  {
    if original.closed != [] {
      var start := original.closed[0].start;
      ClosedPart(original.closed, original.contents[..original.open.start], 0);
      ReopenedHas(original.files, ChunksOf(original.closed), |original.closed|, 0);
      NoOpenNames(log.closed, start);
      OpenNamesDiffer(start, original.open.start);
    }
  }

  /**
   Restoring a directory that has been restored before, when there was a closed page: the entries
   of the open page are missed, and where it has none it is not listed.
   */
  method RestoreAgain(original: PersistedLog, restored: PersistedLog, listing: seq<string>) returns (log: PersistedLog)
    requires original.Valid() && original.Mirrored() && |original.contents| < 0x8000_0000 && original.closed != []
    requires RestoredFrom(restored, original) && Lists(listing, restored.files)
    ensures fresh(log)
    ensures Spoiled(log, original.contents[..original.open.start], EntriesOf(original.open.records))
  {
    MirroredLayout(original);
    ghost var d := LayoutOf(original);
    AfterLaid(d);
    log := RestoreCopy(restored.size, restored.maxFileSize, restored.files, listing, After(d));
  }
}
