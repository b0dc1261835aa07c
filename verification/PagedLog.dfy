/**
 The persisted log: an ordered map of pages, of which the last is open for appends, rotated by
 byte size and truncated across pages. It is proved to hold one plain sequence of entries.
 */
module PagedLog {
  import opened Types
  import opened Filenames
  import opened OrderedMap

  /** A directory: the entries of each of its files. */
  type FileMap = map<string, seq<Entry>>

  /** An entry of a page and the byte offset at which it was written. */
  datatype Record = Record(offset: int, entry: Entry)

  function Bytes(size: Entry -> nat, records: seq<Record>): nat {
    if records == [] then 0
    else Bytes(size, records[..|records| - 1]) + size(records[|records| - 1].entry)
  }

  lemma {:induction false} BytesPrefix(size: Entry -> nat, records: seq<Record>, j: nat)
    requires j <= |records|
    ensures Bytes(size, records[..j]) <= Bytes(size, records)
  {
    var n := |records| - 1;
    if j <= n {
      BytesPrefix(size, records[..n], j);
      assert records[..n][..j] == records[..j];
    } else {
      assert records[..j] == records;
    }
  }

  function EntriesOf(records: seq<Record>): (r: seq<Entry>)
    ensures |r| == |records| && forall j :: 0 <= j < |r| ==> r[j] == records[j].entry
  {
    seq(|records|, j requires 0 <= j < |records| => records[j].entry)
  }

  class Page {
    const start: nat
    const maxFileSize: int
    var isOpen: bool
    var byteOffset: int
    var end: nat
    var records: seq<Record>

    constructor (start: nat, isOpen: bool, maxFileSize: int)
      ensures this.start == start && this.isOpen == isOpen && this.maxFileSize == maxFileSize
      ensures end == start && byteOffset == 0 && records == []
    {
      this.start, this.isOpen, this.maxFileSize := start, isOpen, maxFileSize;
      end, byteOffset, records := start, 0, [];
    }

    /** The records are the entries of `contents` from `start` to `end`. */
    ghost predicate Part(contents: seq<Entry>)
      reads `end, `records
    {
      && end == start + |records| && end <= |contents|
      && (forall j :: 0 <= j < |records| ==> records[j].entry == contents[start + j])
    }

    /** The records are the last entries of `contents`. */
    ghost predicate Ends(contents: seq<Entry>)
      reads `end, `records
    {
      Part(contents) && end == |contents|
    }

    /** The byte counts are those of the records. */
    ghost predicate Measured(size: Entry -> nat)
      reads `byteOffset, `records
    {
      && byteOffset == Bytes(size, records)
      && (forall j :: 0 <= j < |records| ==> records[j].offset == Bytes(size, records[..j]))
    }

    function RemainingSpace(): int
      reads this
    {
      maxFileSize - byteOffset
    }

    method WriteLogEntry(size: Entry -> nat, e: Entry, ghost contents: seq<Entry>)
      modifies this
      ensures records == old(records) + [Record(old(byteOffset), e)] && byteOffset == old(byteOffset) + size(e)
      ensures end == old(end) + 1 && isOpen == old(isOpen)
      ensures old(Ends(contents)) ==> Ends(contents + [e])
      ensures old(Measured(size)) ==> Measured(size)
    {
      records := records + [Record(byteOffset, e)];
      byteOffset := byteOffset + size(e);
      end := end + 1;
      assert records[..|records| - 1] == old(records);
      forall j | 0 <= j < |old(records)| ensures records[..j] == old(records)[..j] {
      }
    }

    /** Cuts the page; the source also resizes its file to the new byte count. */
    method TruncateSuffix(removal: int, ghost size: Entry -> nat, ghost contents: seq<Entry>)
      requires Ends(contents) && start <= removal < end
      modifies this
      ensures Ends(contents[..removal]) && isOpen == old(isOpen)
      ensures records == old(records)[..removal - start] && byteOffset == old(records)[removal - start].offset
      ensures old(Measured(size)) ==> Measured(size) && byteOffset <= old(byteOffset)
    {
      var last := removal - start;
      BytesPrefix(size, records, last);
      byteOffset := records[last].offset;
      records := records[..last];
      end := removal;
      forall j | 0 <= j < last ensures records[..j] == old(records)[..j] {
      }
    }

    method Close()
      modifies this`isOpen
      ensures !isOpen
    {
      isOpen := false;
    }
  }

  /** Closed pages hold `contents` between them, without gaps, and none of them is empty. */
  ghost predicate Closed(pages: seq<Page>, contents: seq<Entry>)
    reads pages`end, pages`records
  {
    if pages == [] then contents == []
    else
      var last := pages[|pages| - 1];
      && last.Ends(contents) && last.start < last.end
      && Closed(pages[..|pages| - 1], contents[..last.start])
  }

  /** The pages hold `contents`, and only the last may be empty. */
  ghost predicate Tiled(pages: seq<Page>, contents: seq<Entry>)
    reads pages`end, pages`records
  {
    if pages == [] then contents == []
    else
      var last := pages[|pages| - 1];
      last.Ends(contents) && Closed(pages[..|pages| - 1], contents[..last.start])
  }

  ghost predicate Starts(pages: seq<Page>, k: int) {
    exists i :: 0 <= i < |pages| && pages[i].start == k
  }

  /** The map holds exactly these pages, each under its start index. */
  ghost predicate Indexed(indices: map<int, Page>, pages: seq<Page>) {
    && (forall i :: 0 <= i < |pages| ==> pages[i].start in indices && indices[pages[i].start] == pages[i])
    && (forall k :: k in indices ==> Starts(pages, k))
  }

  lemma {:induction false} ClosedPart(pages: seq<Page>, contents: seq<Entry>, i: nat)
    requires Closed(pages, contents) && i < |pages|
    ensures pages[i].Part(contents) && pages[i].start < pages[i].end <= |contents|
  {
    var n := |pages| - 1;
    if i < n {
      ClosedPart(pages[..n], contents[..pages[n].start], i);
    }
  }

  lemma {:induction false} ClosedOrder(pages: seq<Page>, contents: seq<Entry>, i: nat, j: nat)
    requires Closed(pages, contents) && i < j < |pages|
    ensures pages[i].end <= pages[j].start
  {
    var n := |pages| - 1;
    if j < n {
      ClosedOrder(pages[..n], contents[..pages[n].start], i, j);
    } else {
      ClosedPart(pages[..n], contents[..pages[n].start], i);
    }
  }

  lemma TiledPart(pages: seq<Page>, contents: seq<Entry>, i: nat)
    requires Tiled(pages, contents) && i < |pages|
    ensures pages[i].Part(contents) && pages[i].end <= |contents|
    ensures i < |pages| - 1 ==> pages[i].start < pages[i].end
  {
    var n := |pages| - 1;
    if i < n {
      ClosedPart(pages[..n], contents[..pages[n].start], i);
    }
  }

  lemma TiledOrder(pages: seq<Page>, contents: seq<Entry>, i: nat, j: nat)
    requires Tiled(pages, contents) && i < j < |pages|
    ensures pages[i].end <= pages[j].start
  {
    var n := |pages| - 1;
    if j < n {
      ClosedOrder(pages[..n], contents[..pages[n].start], i, j);
    } else {
      ClosedPart(pages[..n], contents[..pages[n].start], i);
    }
  }

  /** A page that holds something continues closed pages. */
  lemma ClosedGrows(pages: seq<Page>, page: Page, contents: seq<Entry>)
    requires page.Ends(contents) && page.records != [] && Closed(pages, contents[..page.start])
    ensures Closed(pages + [page], contents)
  {
    assert (pages + [page])[..|pages|] == pages;
  }

  /** The last page is none of those before it. */
  lemma LastApart(pages: seq<Page>, contents: seq<Entry>)
    requires Closed(pages, contents) && pages != []
    ensures pages[|pages| - 1] !in pages[..|pages| - 1]
  {
    var n := |pages| - 1;
    forall i | 0 <= i < n ensures pages[i] != pages[n] {
      ClosedOrder(pages, contents, i, n);
      ClosedPart(pages, contents, i);
    }
  }

  /** Some page holds each index of the log. */
  lemma {:induction false} ClosedFind(pages: seq<Page>, contents: seq<Entry>, idx: int) returns (i: nat)
    requires Closed(pages, contents) && 0 <= idx < |contents|
    ensures i < |pages| && pages[i].start <= idx < pages[i].end
  {
    var n := |pages| - 1;
    if pages[n].start <= idx {
      i := n;
    } else {
      i := ClosedFind(pages[..n], contents[..pages[n].start], idx);
    }
  }

  lemma TiledFind(pages: seq<Page>, contents: seq<Entry>, idx: int) returns (i: nat)
    requires Tiled(pages, contents) && 0 <= idx < |contents|
    ensures i < |pages| && pages[i].start <= idx < pages[i].end
  {
    var n := |pages| - 1;
    if pages[n].start <= idx {
      i := n;
    } else {
      i := ClosedFind(pages[..n], contents[..pages[n].start], idx);
    }
  }

  // ---------------------------------------------------------------- the ordered map

  /** Stepping back from the upper bound of an index finds the page that holds it. */
  lemma FloorIsPage(indices: map<int, Page>, pages: seq<Page>, contents: seq<Entry>, idx: int, i: nat)
    requires Tiled(pages, contents) && Indexed(indices, pages)
    requires i < |pages| && pages[i].start <= idx < pages[i].end
    ensures IsFloor(indices, idx, pages[i].start)
  {
    forall k | k in indices && k <= idx ensures k <= pages[i].start {
      assert Starts(pages, k);
      var m :| 0 <= m < |pages| && pages[m].start == k;
      if m > i {
        TiledOrder(pages, contents, i, m);
      } else if m < i {
        TiledOrder(pages, contents, m, i);
        TiledPart(pages, contents, m);
      }
    }
  }

  lemma LastIsPage(indices: map<int, Page>, pages: seq<Page>, contents: seq<Entry>)
    requires Tiled(pages, contents) && Indexed(indices, pages) && pages != []
    ensures IsLast(indices, pages[|pages| - 1].start)
  {
    forall k | k in indices ensures k <= pages[|pages| - 1].start {
      assert Starts(pages, k);
      var m :| 0 <= m < |pages| && pages[m].start == k;
      if m < |pages| - 1 {
        TiledOrder(pages, contents, m, |pages| - 1);
        TiledPart(pages, contents, m);
      }
    }
  }

  /** Erasing the last page's key leaves the index of the pages before it. */
  lemma IndexedDropped(indices: map<int, Page>, pages: seq<Page>, contents: seq<Entry>)
    requires Tiled(pages, contents) && Indexed(indices, pages) && pages != []
    ensures Indexed(indices - {pages[|pages| - 1].start}, pages[..|pages| - 1])
  {
    var n := |pages| - 1;
    forall i | 0 <= i < n ensures pages[i].start != pages[n].start {
      TiledOrder(pages, contents, i, n);
      TiledPart(pages, contents, i);
    }
    var rest := indices - {pages[n].start};
    forall k | k in rest ensures Starts(pages[..n], k) {
      assert Starts(pages, k);
      var i :| 0 <= i < |pages| && pages[i].start == k;
      assert pages[..n][i].start == k;
    }
  }

  /** Inserting a new last page extends the index. */
  lemma IndexedPushed(indices: map<int, Page>, pages: seq<Page>, page: Page)
    requires Indexed(indices, pages) && page.start !in indices
    ensures Indexed(indices[page.start := page], pages + [page])
  {
    var all := pages + [page];
    forall k | k in indices[page.start := page] ensures Starts(all, k) {
      if k == page.start {
        assert all[|pages|].start == k;
      } else {
        assert Starts(pages, k);
        var i :| 0 <= i < |pages| && pages[i].start == k;
        assert all[i].start == k;
      }
    }
  }

  // ---------------------------------------------------------------- slices

  /** The records found so far are a slice of the log. */
  ghost predicate Slice(found: seq<Record>, contents: seq<Entry>, first: int, upTo: int) {
    && 0 <= first <= upTo <= |contents| && |found| == upTo - first
    && (forall j :: 0 <= j < |found| ==> found[j].entry == contents[first + j])
  }

  lemma SliceGrows(found: seq<Record>, contents: seq<Entry>, first: int, page: Page, from: nat, to: nat)
    requires Slice(found, contents, first, page.start + from) && page.Part(contents)
    requires from <= to <= |page.records|
    ensures Slice(found + page.records[from..to], contents, first, page.start + to)
  {
  }

  /** Whatever `start` was, the offset computed from it is where the read stands in the page. */
  lemma OffsetIs(first: int, start: int, curr: int, page: Page)
    requires 0 <= first <= curr && 0 <= page.start <= curr
    requires if curr == first then start == first else 0 <= start < curr && curr <= page.start
    ensures (if start >= page.start then start - page.start else 0) == curr - page.start
  {
  }

  lemma SliceIs(found: seq<Record>, contents: seq<Entry>, first: int, upTo: int)
    requires Slice(found, contents, first, upTo)
    ensures EntriesOf(found) == contents[first..upTo]
  {
  }

  /** No page runs across this index. */
  ghost predicate Boundary(pages: seq<Page>, at: int)
    reads pages
  {
    forall i :: 0 <= i < |pages| ==> pages[i].end <= at || at <= pages[i].start
  }

  lemma EndIsBoundary(pages: seq<Page>, contents: seq<Entry>, i: nat)
    requires Tiled(pages, contents) && i < |pages|
    ensures Boundary(pages, pages[i].end)
  {
    forall m | 0 <= m < |pages| ensures pages[m].end <= pages[i].end || pages[i].end <= pages[m].start {
      if m < i {
        TiledOrder(pages, contents, m, i);
        TiledPart(pages, contents, i);
      } else if m > i {
        TiledOrder(pages, contents, i, m);
      }
    }
  }

  // ---------------------------------------------------------------- the directory

  /** The files of closed pages: one per page, named by where it starts and ends. */
  ghost function Files(closed: seq<Page>): FileMap
    reads closed`records
  {
    if closed == [] then map[]
    else
      var last := closed[|closed| - 1];
      Files(closed[..|closed| - 1])[ClosedName(last.start, last.start + |last.records|) := EntriesOf(last.records)]
  }

  lemma FilesPushed(closed: seq<Page>, page: Page)
    ensures var name := ClosedName(page.start, page.start + |page.records|);
      Files(closed + [page]) == Files(closed)[name := EntriesOf(page.records)]
  {
  }

  lemma {:induction false} NoOpenNames(closed: seq<Page>, start: nat)
    ensures OpenName(start) !in Files(closed)
  {
    if closed != [] {
      var last := closed[|closed| - 1];
      NoOpenNames(closed[..|closed| - 1], start);
      KindsSort(last.start, last.start + |last.records|, "metadata1", start);
    }
  }

  function Content(files: FileMap, name: string): seq<Entry> {
    if name in files then files[name] else []
  }

  /** Closing a page renames its file, or removes the file when the page is empty. */
  function AfterClose(files: FileMap, start: nat, end: nat): FileMap {
    var name := OpenName(start);
    if start == end then files - {name}
    else (files - {name})[ClosedName(start, end) := Content(files, name)]
  }

  /** Opening a page creates its file, or leaves one that is already there. */
  function AfterOpen(files: FileMap, start: nat): FileMap {
    files[OpenName(start) := Content(files, OpenName(start))]
  }

  /** Closing one page and opening the next. */
  function Rotated(files: FileMap, start: nat, end: nat, next: nat): FileMap {
    AfterOpen(AfterClose(files, start, end), next)
  }

  /** The directory that mirrors closed pages and an open one. */
  ghost function Mirror(closed: seq<Page>, start: nat, content: seq<Entry>): FileMap
    reads closed`records
  {
    Files(closed)[OpenName(start) := content]
  }

  lemma DirectoryRotates(files: FileMap, m: FileMap, start: nat, end: nat, content: seq<Entry>, next: nat)
    requires OpenName(start) !in m && OpenName(next) !in m && start != end
    requires files == m[OpenName(start) := content]
    ensures Rotated(files, start, end, next) == m[ClosedName(start, end) := content][OpenName(next) := []]
  {
    KindsSort(start, end, "metadata1", next);
    assert files - {OpenName(start)} == m;
  }

  /** Rotating the files of mirrored pages mirrors the rotated pages. */
  lemma FilesRotate(files: FileMap, closed: seq<Page>, page: Page, end: nat, next: nat)
    requires files == Mirror(closed, page.start, EntriesOf(page.records))
    requires page.records != [] && end == page.start + |page.records|
    ensures Rotated(files, page.start, end, next) == Mirror(closed + [page], next, [])
  {
    NoOpenNames(closed, page.start);
    NoOpenNames(closed, next);
    DirectoryRotates(files, Files(closed), page.start, end, EntriesOf(page.records), next);
    FilesPushed(closed, page);
  }

  lemma TakeOne(base: seq<Entry>, entries: seq<Entry>, i: nat)
    requires i < |entries|
    ensures base + entries[..i] + [entries[i]] == base + entries[..i + 1]
  {
  }

  class PersistedLog {
    const maxFileSize: int
    const size: Entry -> nat
    var files: FileMap
    var logSize: int
    var indices: map<int, Page>
    var open: Page
    ghost var closed: seq<Page>
    ghost var listed: bool
    ghost var repr: set<Page>
    ghost var contents: seq<Entry>

    /** The pages the map lists, in order. */
    ghost function Pages(): seq<Page>
      reads this`closed, this`listed, this`open
    {
      if listed then closed + [open] else closed
    }

    /** The closed pages hold what is not on the open page. */
    ghost predicate Tiles()
      reads `open, `closed, `repr, `listed, `contents, repr`end, repr`records
    {
      && open in repr && open !in closed && (forall i :: 0 <= i < |closed| ==> closed[i] in repr)
      && if listed then open.Ends(contents) && Closed(closed, contents[..open.start])
         else Closed(closed, contents)
    }

    /** Every read is answered from `contents`. */
    ghost predicate Readable()
      reads `logSize, `contents, `indices, `open, `closed, `repr, `listed, repr`end, repr`records
    {
      logSize == |contents| && Tiles() && Indexed(indices, Pages())
    }

    /** The log is also ready for appends: the open page is the last listed one. */
    ghost predicate Valid()
      reads `logSize, `contents, `indices, `open, `closed, `repr, `listed, repr
    {
      && Readable() && listed && open.isOpen && open.maxFileSize == maxFileSize
      && (open.records == [] ==> open.byteOffset == 0)
    }

    lemma Lists()
      requires Readable()
      ensures Tiled(Pages(), contents)
    {
    }

    /** Each page has its file: the directory that a run of appends leaves behind. */
    ghost predicate Mirrored()
      reads this, closed`records, open`records
    {
      files == Mirror(closed, open.start, EntriesOf(open.records))
    }

    /** The page counts its bytes correctly and its remaining space is not negative. */
    ghost predicate HasRoom(p: Page)
      reads p`byteOffset, p`records
    {
      p.Measured(size) && p.byteOffset <= maxFileSize == p.maxFileSize
    }

    /** Every page, listed or not, counts its bytes correctly and has room for them. */
    ghost predicate Roomy()
      reads `repr, repr`byteOffset, repr`records
    {
      forall p :: p in repr ==> HasRoom(p)
    }

    /** The open page as it is made. */
    ghost predicate Blank()
      reads `open, open
    {
      && open.isOpen && open.maxFileSize == maxFileSize
      && open.records == [] && open.byteOffset == 0 && open.end == open.start
    }

    /** The log that some truncations leave: all of it can be read, but the map does not list the open page. */
    ghost predicate Detached()
      reads `logSize, `contents, `indices, `open, `closed, `repr, `listed, repr, open
    {
      Readable() && !listed && Blank() && |contents| <= open.start
    }

    /** No listed page is the open one or reaches the next index: what the open page takes is not found. */
    ghost predicate Unlisted()
      reads `indices, `open, `contents, `repr, indices.Values`records
    {
      forall k :: k in indices ==>
        indices[k] in repr && indices[k] != open && k + |indices[k].records| <= |contents|
    }

    /** The log counts an entry at this index that no listed page holds. */
    ghost predicate Misses(i: int)
      reads `indices, `open, `contents, `repr, `logSize, indices.Values`records
    {
      && 0 <= i < |contents| && Counted()
      && forall k :: k in indices && k <= i ==>
        indices[k] in repr && indices[k] != open && k + |indices[k].records| <= i
    }

    ghost predicate Counted()
      reads `open, `contents, `repr, `logSize
    {
      logSize == |contents| && open in repr
    }

    constructor (size: Entry -> nat, maxFileSize: int)
      ensures Valid() && Mirrored() && (maxFileSize >= 0 ==> Roomy()) && fresh(repr) && contents == []
      ensures this.size == size && this.maxFileSize == maxFileSize
    {
      this.size, this.maxFileSize := size, maxFileSize;
      logSize := 0;
      var page := new Page(0, true, maxFileSize);
      open, indices, files := page, map[0 := page], map[OpenName(0) := []];
      closed, listed, repr, contents := [], true, {page}, [];
      new;
      assert Starts(Pages(), 0) by {
        assert Pages()[0].start == 0;
      }
    }

    /** A log over an existing directory, before any of its files has been read. */
    constructor Unread(size: Entry -> nat, maxFileSize: int, files: FileMap)
      ensures Readable() && !listed && closed == [] && contents == [] && fresh(repr)
      ensures this.size == size && this.maxFileSize == maxFileSize && this.files == files
    {
      this.size, this.maxFileSize, this.files := size, maxFileSize, files;
      logSize := 0;
      var page := new Page(0, true, maxFileSize);
      open, indices := page, map[];
      closed, listed, repr, contents := [], false, {page}, [];
    }

    /** The page before the upper bound of an index. */
    method Locate(ghost pages: seq<Page>, idx: int) returns (page: Page, ghost i: nat)
      requires Tiled(pages, contents) && Indexed(indices, pages) && 0 <= idx < |contents|
      ensures i < |pages| && page == pages[i] && page.start <= idx < page.end && page.Part(contents)
    {
      i := TiledFind(pages, contents, idx);
      TiledPart(pages, contents, i);
      FloorIsPage(indices, pages, contents, idx, i);
      var k := FloorKey(indices, idx);
      page := indices[k];
    }

    method LogEntry(idx: int) returns (e: Option<Entry>)
      requires Readable()
      ensures e == if 0 <= idx < |contents| then Some(contents[idx]) else None
    {
      if idx > logSize - 1 || idx < 0 {
        return None;
      }
      Lists();
      var page, i := Locate(Pages(), idx);
      e := Some(page.records[idx - page.start].entry);
    }

    /**
     Where a read stands: everything before `curr` is found, and the cursor `start`, once it has
     been overwritten by an offset into a page, is below `curr`, where the next page starts.
     */
    ghost predicate Reading(pages: seq<Page>, first: int, end: int, start: int, curr: int, found: seq<Record>)
      reads this, pages
    {
      && 0 <= first <= curr <= |contents| && first <= end <= |contents|
      && Slice(found, contents, first, Min(curr, end))
      && if curr == first then start == first else 0 <= start < curr && Boundary(pages, curr)
    }

    /** One round of the loop in `Entries`. */
    method ReadPage(ghost pages: seq<Page>, first: int, end: int, start: int, curr: int, found: seq<Record>)
      returns (start': int, curr': int, found': seq<Record>)
      requires Tiled(pages, contents) && Indexed(indices, pages)
      requires Reading(pages, first, end, start, curr, found) && curr < end
      ensures Reading(pages, first, end, start', curr', found') && curr < curr'
    {
      var page, i := Locate(pages, curr);
      OffsetIs(first, start, curr, page);
      start' := if start >= page.start then start - page.start else 0;
      var to := if page.end >= end then end - page.start else |page.records|;
      SliceGrows(found, contents, first, page, start', to);
      EndIsBoundary(pages, contents, i);
      found' := found + page.records[start'..to];
      curr' := page.end;
    }

    /** The entries from `first` up to `end`, across any number of pages. */
    method Entries(first: int, end: int) returns (r: Option<seq<Entry>>)
      requires Readable()
      ensures r == if 0 <= first <= end <= |contents| then Some(contents[first..end]) else None
    {
      if first > end || end > logSize || first < 0 {
        return None;
      }
      Lists();
      ghost var pages := Pages();
      var start, curr, found := first, first, [];
      while curr < end
        invariant Reading(pages, first, end, start, curr, found)
        decreases end - curr
      {
        start, curr, found := ReadPage(pages, first, end, start, curr, found);
      }
      SliceIs(found, contents, first, end);
      r := Some(EntriesOf(found));
    }

    // ---------------------------------------------------------------- appending

    /** Closes the open page and its file. */
    method ClosePage()
      modifies this`files, open`isOpen
      ensures !open.isOpen
      ensures files == if old(open.isOpen) then AfterClose(old(files), open.start, open.end) else old(files)
    {
      if !open.isOpen {
        return;
      }
      open.Close();
      var name := OpenName(open.start);
      if open.start == open.end {
        files := files - {name};
        return;
      }
      files := (files - {name})[ClosedName(open.start, open.end) := Content(files, name)];
    }

    /** A new page was opened at the end of the log. */
    twostate predicate Turned()
      reads `contents, `logSize, `open, `indices, `repr, open, repr
    {
      && contents == old(contents) && logSize == old(logSize) && repr == old(repr) + {open} && open !in old(repr)
      && Blank() && open.start == logSize
      && indices == (if logSize in old(indices) then old(indices) else old(indices)[logSize := open])
      && (forall p :: p in old(repr) ==> PageKept(p))
    }

    twostate predicate PageKept(p: Page)
      reads p
    {
      p.end == old(p.end) && p.records == old(p.records) && p.byteOffset == old(p.byteOffset)
    }

    twostate lemma TurnedRoomy()
      requires old(Roomy()) && old(open in repr) && Turned()
      ensures Roomy()
    {
      assert old(HasRoom(open));
      forall p | p in old(repr) ensures HasRoom(p) {
        assert PageKept(p) && old(HasRoom(p));
      }
    }

    /** Closes the open page and opens a new one; an ordered map's insert keeps an existing key. */
    method CreateOpenFile()
      requires open in repr && logSize >= 0
      modifies this`open, this`indices, this`repr, this`files, open`isOpen
      ensures Turned() && fresh(open)
      ensures old(open.isOpen) ==> files == Rotated(old(files), old(open.start), old(open.end), logSize)
    {
      ClosePage();
      open := new Page(logSize, true, maxFileSize);
      files := AfterOpen(files, logSize);
      repr := repr + {open};
      if open.start !in indices {
        indices := indices[open.start := open];
      }
    }

    /** Every listed page holds something. */
    ghost predicate Full()
      reads `logSize, `contents, `indices, `open, `closed, `repr, `listed, repr`end, repr`records
    {
      Readable() && (listed ==> open.records != [])
    }

    /** A full log lists no page at its end. */
    lemma FullEnds()
      requires Full()
      ensures Closed(Pages(), contents) && logSize !in indices
    {
      Lists();
      if listed {
        ClosedGrows(closed, open, contents);
      }
      if logSize in indices {
        assert Starts(Pages(), logSize);
        var i :| 0 <= i < |Pages()| && Pages()[i].start == logSize;
        ClosedPart(Pages(), contents, i);
      }
    }

    /** No listed page reaches beyond the log. */
    lemma Reach()
      requires Readable()
      ensures forall k :: k in indices ==> indices[k] in repr && k + |indices[k].records| <= |contents|
    {
      Lists();
      forall k | k in indices ensures indices[k] in repr && k + |indices[k].records| <= |contents| {
        assert Starts(Pages(), k);
        var i :| 0 <= i < |Pages()| && Pages()[i].start == k;
        TiledPart(Pages(), contents, i);
      }
    }

    lemma UnlistedIff()
      requires Readable()
      ensures Unlisted() <==> !listed
    {
      Reach();
      if listed {
        assert Pages()[|closed|] == open && indices[open.start] == open;
      } else {
        forall k | k in indices ensures indices[k] != open {
          assert Starts(closed, k);
        }
      }
    }

    lemma MissesUnreadable(i: int)
      requires Misses(i)
      ensures !Readable()
    {
      if Readable() {
        Lists();
        var j := TiledFind(Pages(), contents, i);
        TiledPart(Pages(), contents, j);
      }
    }

    /** A new page at the end of a full log is listed. */
    twostate lemma TurnedFull()
      requires old(Full()) && old(Closed(Pages(), contents)) && old(logSize !in indices)
      requires Turned() && listed && closed == old(Pages())
      ensures Valid()
    {
      IndexedPushed(old(indices), closed, open);
      assert contents[..open.start] == contents;
      assert Closed(closed, contents) == old(Closed(Pages(), contents));
    }

    /** A new page in place of an empty one is not. */
    twostate lemma TurnedEmpty()
      requires old(Valid()) && old(open.records) == [] && Turned()
      requires old(forall k :: k in indices ==> indices[k] in repr && k + |indices[k].records| <= |contents|)
      ensures Unlisted()
    {
      assert old(Pages())[|old(closed)|] == old(open);
    }

    twostate lemma TurnedMisses(i: int)
      requires old(Misses(i)) && Turned()
      ensures Misses(i)
    {
    }

    /** Opens a new page; what the log missed it still misses. */
    method OpenNext()
      requires Counted()
      modifies this`open, this`indices, this`repr, this`files, open`isOpen
      ensures Turned() && fresh(open)
      ensures old(Valid()) && old(open.records) == [] ==> Unlisted()
      ensures forall i :: old(Misses(i)) ==> Misses(i)
      ensures old(open.isOpen) ==> files == Rotated(old(files), old(open.start), old(open.end), open.start)
      ensures old(Roomy()) ==> Roomy()
    {
      if Valid() {
        Reach();
      }
      CreateOpenFile();
      if old(Valid()) && old(open.records) == [] {
        TurnedEmpty();
      }
      if old(Roomy()) {
        TurnedRoomy();
      }
      forall i | old(Misses(i)) ensures Misses(i) {
        TurnedMisses(i);
      }
    }

    /** Closes the open page and opens a new one, which is listed if the log was full. */
    method Rotate()
      requires Counted()
      modifies this`open, this`indices, this`repr, this`files, this`closed, this`listed, open`isOpen
      ensures Turned() && fresh(open)
      ensures old(Full()) ==> Valid() && closed == old(Pages())
      ensures old(Valid()) && old(open.records) == [] ==> Unlisted()
      ensures forall i :: old(Misses(i)) ==> Misses(i)
      ensures old(open.isOpen) ==> files == Rotated(old(files), old(open.start), old(open.end), open.start)
      ensures old(Roomy()) ==> Roomy()
    {
      if Full() {
        FullEnds();
      }
      OpenNext();
      if old(Full()) {
        closed, listed := old(Pages()), true;
        TurnedFull();
      }
    }

    /** The directory still mirrors the pages of before, as long as their records stay. */
    twostate lemma FilesStay()
      requires old(Mirrored()) && old(open) in old(repr)
      requires forall i :: 0 <= i < |old(closed)| ==> old(closed)[i] in old(repr)
      requires forall p :: p in old(repr) ==> p.records == old(p.records)
      ensures old(files) == Mirror(old(closed), old(open).start, EntriesOf(old(open).records))
    {
      var page, before := old(open), old(closed);
      assert Mirror(before, page.start, EntriesOf(page.records))
        == old(Mirror(before, page.start, EntriesOf(page.records)));
    }

    /** Rotating a mirrored log mirrors the rotated pages. */
    twostate lemma RotateMirrors()
      requires old(Mirrored()) && old(open.records) != [] && old(open.end) == old(open.start) + |old(open.records)|
      requires closed == old(closed) + [old(open)] && open.records == []
      requires files == Rotated(old(files), old(open.start), old(open.end), open.start)
      requires old(open) in old(repr) && forall i :: 0 <= i < |old(closed)| ==> old(closed)[i] in old(repr)
      requires forall p :: p in old(repr) ==> p.records == old(p.records)
      ensures Mirrored()
    {
      var page, before := old(open), old(closed);
      FilesStay();
      FilesRotate(old(files), before, page, old(open.end), open.start);
      assert EntriesOf(open.records) == [];
    }

    /** Writing to the open page and its file extends what the page holds. */
    method WriteOpen(e: Entry)
      modifies this`logSize, this`contents, this`files, open
      ensures contents == old(contents) + [e] && logSize == old(logSize) + 1
      ensures old(open.Ends(contents)) ==> open.Ends(contents)
      ensures open.isOpen == old(open.isOpen) && open.byteOffset == old(open.byteOffset) + size(e)
      ensures open.records == old(open.records) + [Record(old(open.byteOffset), e)]
      ensures old(open.Measured(size)) ==> open.Measured(size)
      ensures old(Mirrored()) && open !in closed ==> Mirrored()
    {
      var name := OpenName(open.start);
      files := files[name := Content(files, name) + [e]];
      open.WriteLogEntry(size, e, contents);
      logSize := logSize + 1;
      contents := contents + [e];
      assert EntriesOf(open.records) == old(EntriesOf(open.records)) + [e];
    }

    /**
     Whether the entry is too large for the open page. The source compares unsigned numbers, so a
     negative remaining space counts as a huge one.
     */
    predicate NeedsRotation(e: Entry)
      reads this, open
    {
      open.RemainingSpace() >= 0 && size(e) > open.RemainingSpace()
    }

    /** Rotating a full log keeps its directory mirrored. */
    method RotateKept()
      requires Counted()
      modifies this`open, this`indices, this`repr, this`files, this`closed, this`listed, open`isOpen
      ensures Turned() && fresh(open)
      ensures old(Full()) ==> Valid()
      ensures old(Valid()) && old(open.records) == [] ==> Unlisted()
      ensures forall i :: old(Misses(i)) ==> Misses(i)
      ensures old(Full() && Valid() && Mirrored()) ==> Mirrored()
      ensures old(Roomy()) ==> Roomy()
    {
      Rotate();
      if old(Full() && Valid() && Mirrored()) {
        RotateMirrors();
      }
    }

    /** The open page has taken one more entry, and nothing else has changed. */
    twostate predicate Taken()
      reads this, repr, open
    {
      && open == old(open) && closed == old(closed) && listed == old(listed)
      && indices == old(indices) && repr == old(repr)
      && logSize == old(logSize) + 1 == |contents| && old(contents) <= contents
      && (old(open.Ends(contents)) ==> open.Ends(contents))
      && open.isOpen == old(open.isOpen) && open.records != []
      && forall p :: p in repr && p != open ==> p.end == old(p.end) && p.records == old(p.records)
    }

    twostate lemma TakenValid()
      requires old(Valid()) && Taken()
      ensures Valid()
    {
      assert contents[..open.start] == old(contents)[..open.start];
      assert Closed(closed, contents[..open.start]) == old(Closed(closed, contents[..open.start]));
    }

    /** What an unlisted page takes is missed. */
    twostate lemma TakenUnlisted()
      requires old(Unlisted() && Counted()) && Taken()
      ensures Misses(|old(contents)|)
    {
    }

    twostate lemma TakenMisses(i: int)
      requires old(Misses(i)) && Taken()
      ensures Misses(i)
    {
    }

    /** The write after the rotation. */
    method WriteFitting(e: Entry)
      requires Counted()
      modifies this`logSize, this`contents, this`files, open
      ensures Counted() && contents == old(contents) + [e] && open.records != []
      ensures old(Valid()) ==> Valid()
      ensures old(Unlisted()) ==> Misses(|old(contents)|)
      ensures forall i :: old(Misses(i)) ==> Misses(i)
      ensures old(Valid() && Mirrored()) ==> Mirrored()
      ensures old(Roomy() && !NeedsRotation(e)) ==> Roomy()
    {
      WriteOpen(e);
      if old(Valid()) {
        TakenValid();
      }
      if old(Unlisted()) {
        TakenUnlisted();
      }
      forall i | old(Misses(i)) ensures Misses(i) {
        TakenMisses(i);
      }
    }

    /** The entry is larger than a whole file and would be the first on its page. */
    ghost predicate Oversize(e: Entry)
      reads this, open
    {
      open.records == [] && 0 <= maxFileSize < size(e)
    }

    /** The entry goes to a listed page: a rotation lists an unlisted page and unlists an empty one. */
    ghost predicate Keeps(e: Entry)
      reads this, open
    {
      listed != Oversize(e)
    }

    /**
     One round of the loop in `PersistLogEntries`. The log grows by the entry. An entry larger than a
     whole file that meets an empty page opens another page at the same key: where the map listed
     the empty page, the new one is not listed and the entry is missed; where it did not, the new
     one is listed. Every other entry is found exactly when the open page is listed.
     */
    method WriteEntry(e: Entry)
      requires Counted()
      modifies this, repr
      ensures Counted() && contents == old(contents) + [e] && fresh(repr - old(repr)) && open.records != []
      ensures old(Valid() || Detached()) ==> Valid() == Readable() == old(Keeps(e))
      ensures old((Valid() || Detached()) && !Keeps(e)) ==> Misses(|old(contents)|)
      ensures forall i :: old(Misses(i)) ==> Misses(i)
      ensures old(Valid() && Mirrored() && Keeps(e)) ==> Mirrored()
      ensures old(Roomy()) && size(e) <= maxFileSize ==> Roomy()
    {
      if Readable() {
        UnlistedIff();
      }
      if NeedsRotation(e) {
        RotateKept();
      }
      WriteFitting(e);
      if old((Valid() || Detached()) && !Keeps(e)) {
        MissesUnreadable(|old(contents)|);
      }
    }

    /** Each of the entries fits a file. */
    ghost predicate Fit(entries: seq<Entry>) {
      forall e :: e in entries ==> size(e) <= maxFileSize
    }

    /** The first of the entries goes to a page that is not listed. */
    ghost predicate Loses(entries: seq<Entry>)
      reads this, open
    {
      entries != [] && !Keeps(entries[0])
    }

    /** Before the first of the entries is written. */
    ghost predicate Starting(entries: seq<Entry>, missed: int, mirrored: bool)
      reads this, repr, closed`records, open, indices.Values
    {
      && (Valid() || Detached()) && (mirrored ==> Valid() && Mirrored())
      && missed == (if Loses(entries) then |contents| else -1)
    }

    /** After a write to a log that could be read: it misses the first entry written, or misses none. */
    ghost predicate Written(missed: int, mirrored: bool)
      reads this, repr, closed`records, open`records, indices.Values
    {
      open.records != [] && if missed >= 0 then Misses(missed) else Valid() && (mirrored ==> Mirrored())
    }

    /** A round of the loop in `PersistLogEntries`, seen from between two writes. */
    method WriteNext(entries: seq<Entry>, i: nat, ghost missed: int, ghost mirrored: bool)
      requires Counted() && i < |entries|
      modifies this, repr
      ensures Counted() && contents == old(contents) + [entries[i]] && fresh(repr - old(repr))
      ensures old(if i == 0 then Starting(entries, missed, mirrored) else Written(missed, mirrored)) ==>
        Written(missed, mirrored)
      ensures forall j :: old(Misses(j)) ==> Misses(j)
      ensures old(Roomy()) && size(entries[i]) <= maxFileSize ==> Roomy()
    {
      WriteEntry(entries[i]);
    }

    /** The loop of `PersistLogEntries`, seen from between two writes. */
    method WriteAll(entries: seq<Entry>, ghost missed: int, ghost mirrored: bool)
      requires Counted()
      modifies this, repr
      ensures Counted() && contents == old(contents) + entries && fresh(repr - old(repr))
      ensures old(Starting(entries, missed, mirrored)) ==>
        if entries == [] then Starting(entries, missed, mirrored) && listed == old(listed)
        else Written(missed, mirrored)
      ensures forall j :: old(Misses(j)) ==> Misses(j)
      ensures old(Roomy() && Fit(entries)) ==> Roomy()
    {
      for i := 0 to |entries|
        invariant Counted() && contents == old(contents) + entries[..i] && fresh(repr - old(repr))
        invariant i == 0 ==> listed == old(listed)
        invariant old(Starting(entries, missed, mirrored)) ==>
          if i == 0 then Starting(entries, missed, mirrored) else Written(missed, mirrored)
        invariant forall j :: old(Misses(j)) ==> Misses(j)
        invariant old(Roomy() && Fit(entries)) ==> Roomy()
      {
        WriteNext(entries, i, missed, mirrored);
        TakeOne(old(contents), entries, i);
      }
      assert entries[..|entries|] == entries;
    }

    /**
     Appends the entries. All of them can be read back if and only if the first goes to a listed page;
     a later one always finds a page with something on it.
     */
    method PersistLogEntries(entries: seq<Entry>)
      requires Counted()
      modifies this, repr
      ensures Counted() && contents == old(contents) + entries && fresh(repr - old(repr))
      ensures old(Valid() || Detached()) ==> Readable() == !old(Loses(entries))
      ensures old(Valid() || Detached()) ==> Valid() == (Readable() && (old(Valid()) || entries != []))
      ensures old((Valid() || Detached()) && Loses(entries)) ==> Misses(|old(contents)|)
      ensures forall i :: old(Misses(i)) ==> Misses(i)
      ensures old(Valid() && Mirrored() && !Loses(entries)) ==> Mirrored()
      ensures old(Roomy() && Fit(entries)) ==> Roomy()
    {
      ghost var missed := if Loses(entries) then |contents| else -1;
      WriteAll(entries, missed, Valid() && Mirrored());
      if Misses(missed) {
        MissesUnreadable(missed);
      }
    }

    method Append(e: Entry) returns (index: int)
      requires Counted()
      modifies this, repr
      ensures Counted() && contents == old(contents) + [e] && index == |old(contents)| && fresh(repr - old(repr))
      ensures old(Valid() || Detached()) ==> Valid() == Readable() == old(Keeps(e))
      ensures old((Valid() || Detached()) && !Keeps(e)) ==> Misses(|old(contents)|)
      ensures forall i :: old(Misses(i)) ==> Misses(i)
      ensures old(Valid() && Mirrored() && Keeps(e)) ==> Mirrored()
      ensures old(Roomy()) && size(e) <= maxFileSize ==> Roomy()
    {
      index := logSize;
      PersistLogEntries([e]);
    }

    method AppendAll(entries: seq<Entry>) returns (start: int, end: int)
      requires Counted()
      modifies this, repr
      ensures Counted() && contents == old(contents) + entries && fresh(repr - old(repr))
      ensures start == |old(contents)| && end == start + |entries|
      ensures old(Valid() || Detached()) ==> Readable() == !old(Loses(entries))
      ensures old(Valid() || Detached()) ==> Valid() == (Readable() && (old(Valid()) || entries != []))
      ensures old((Valid() || Detached()) && Loses(entries)) ==> Misses(|old(contents)|)
      ensures forall i :: old(Misses(i)) ==> Misses(i)
      ensures old(Valid() && Mirrored() && !Loses(entries)) ==> Mirrored()
      ensures old(Roomy() && Fit(entries)) ==> Roomy()
    {
      start := logSize;
      PersistLogEntries(entries);
      end := logSize;
    }

    // ---------------------------------------------------------------- truncating

    /** Cuts the open page, which keeps some of its entries. */
    method CutOpen(removal: int)
      requires Valid() && open.start < removal < open.end
      modifies this`logSize, this`contents, open
      ensures Valid() && contents == old(contents)[..removal] && open.records != []
      ensures old(Roomy()) ==> Roomy()
    {
      logSize := logSize - (open.end - removal);
      open.TruncateSuffix(removal, size, contents);
      contents := contents[..removal];
      assert contents[..open.start] == old(contents)[..open.start];
    }

    /** Unlists the last page, with all its entries. */
    method DropPage(page: Page)
      requires Readable() && Pages() != [] && page == Pages()[|Pages()| - 1]
      modifies this`indices, this`logSize, this`listed, this`closed, this`contents
      ensures Readable() && !listed && contents == old(contents)[..page.start]
      ensures |Pages()| < |old(Pages())|
    {
      Lists();
      IndexedDropped(indices, Pages(), contents);
      ghost var rest := Pages()[..|Pages()| - 1];
      indices := indices - {page.start};
      logSize := logSize - (page.end - page.start);
      if listed {
        assert rest == closed;
      }
      listed, closed, contents := false, rest, contents[..page.start];
    }

    /** The closed pages are what the map lists without the open page. */
    lemma ClosedStay()
      requires Valid() || Detached()
      ensures Indexed(indices - {open.start}, closed) && Closed(closed, contents[..Min(open.start, |contents|)])
    {
      if listed {
        Lists();
        IndexedDropped(indices, Pages(), contents);
        assert Pages()[..|closed|] == closed;
      } else {
        assert contents[..Min(open.start, |contents|)] == contents;
        forall i | 0 <= i < |closed| ensures closed[i].start != open.start {
          ClosedPart(closed, contents, i);
        }
      }
    }

    /** Erases the key of the open page, whether or not the map holds it, with all the page's entries. */
    method EraseOpen()
      requires Valid() || Detached()
      modifies this`indices, this`logSize, this`listed, this`contents
      ensures Readable() && !listed && contents == old(contents)[..Min(open.start, |old(contents)|)]
    {
      ClosedStay();
      indices := indices - {open.start};
      logSize := logSize - (open.end - open.start);
      contents, listed := contents[..Min(open.start, |contents|)], false;
    }

    /** Empties the open page once it is no longer listed. */
    method ClearOpen()
      requires Readable() && !listed
      modifies open
      ensures Readable()
      ensures old(Roomy()) ==> Roomy()
    {
      open.end := open.start;
      open.byteOffset := 0;
      open.records := [];
    }

    /** Replaces the open page by an empty one at the end of what the pages before it hold. */
    method ResetOpen()
      requires Valid() || Detached()
      modifies this`indices, this`logSize, this`open, this`repr, this`files, this`contents, this`closed, this`listed
      modifies open
      ensures Valid() && Blank() && fresh(repr - old(repr)) && open.start == |contents|
      ensures contents == old(contents)[..Min(old(open.start), |old(contents)|)]
      ensures old(Roomy()) ==> Roomy()
    {
      EraseOpen();
      ClearOpen();
      Rotate();
      assert repr == old(repr) + {open};
    }

    /** Cuts the last of the closed pages, with what they hold. */
    method CutLast(page: Page, removal: int)
      requires Closed(closed, contents) && closed != [] && page == closed[|closed| - 1]
      requires page.start < removal < page.end
      modifies this`contents, page
      ensures Closed(closed, contents) && contents == old(contents)[..removal]
      ensures old(HasRoom(page)) ==> HasRoom(page)
    {
      ghost var before := closed[..|closed| - 1];
      LastApart(closed, contents);
      page.TruncateSuffix(removal, size, contents);
      contents := contents[..removal];
      assert contents[..page.start] == old(contents)[..page.start];
      assert Closed(before, contents[..page.start]);
    }

    /** Cuts the last page when it is a closed one, which keeps some of its entries. */
    method CutClosed(page: Page, removal: int)
      requires Readable() && !listed && closed != [] && page == closed[|closed| - 1]
      requires page.start < removal < page.end
      modifies this`logSize, this`contents, page
      ensures Readable() && !listed && contents == old(contents)[..removal]
      ensures old(Roomy()) && page in repr ==> Roomy()
    {
      logSize := logSize - (page.end - removal);
      CutLast(page, removal);
    }

    /** The last page of the ordered map. */
    method LastPage() returns (page: Page)
      requires Readable() && Pages() != []
      ensures page == Pages()[|Pages()| - 1] && page in repr && page.start <= page.end == logSize
    {
      Lists();
      LastIsPage(indices, Pages(), contents);
      page := indices[LastKey(indices)];
    }

    static lemma PrefixCut(a: seq<Entry>, b: seq<Entry>, k: nat)
      requires a <= b && k <= |a|
      ensures a[..k] <= b && a[..k] == b[..k]
    {
    }

    predicate ListsAny()
      reads `indices
    {
      exists k :: k in indices
    }

    lemma ListsPages()
      requires Readable()
      ensures ListsAny() <==> Pages() != []
    {
    }

    /** One round of the truncation loop: the last page goes, or is cut and the loop is done. */
    method TruncateLast(removal: int) returns (done: bool)
      requires Readable() && Pages() != [] && removal <= logSize && removal <= open.start
      modifies this`indices, this`logSize, this`contents, this`closed, this`listed, repr
      ensures Readable() && !listed && contents <= old(contents) && Max(0, removal) <= |contents|
      ensures if done then |contents| == Max(0, removal) else |Pages()| < |old(Pages())|
      ensures old(Blank()) ==> Blank()
      ensures old(Roomy()) ==> Roomy()
    {
      var page := LastPage();
      if page.start >= removal {
        DropPage(page);
        return false;
      }
      if page.end > removal {
        CutClosed(page, removal);
      }
      done := true;
    }

    /** The loop that deletes whole pages from the end and cuts the last one it reaches. */
    method TruncatePages(removal: int)
      requires Valid() && Blank() && removal <= open.start
      modifies this`indices, this`logSize, this`contents, this`closed, this`listed, repr
      ensures Detached() && contents == old(contents)[..Max(0, removal)]
      ensures old(Roomy()) ==> Roomy()
    {
      ListsPages();
      while ListsAny()
        invariant Readable() && Blank() && repr == old(repr) && open == old(open)
        invariant Max(0, removal) <= |contents| && contents <= old(contents)
        invariant ListsAny() == (Pages() != [])
        invariant old(Roomy()) ==> Roomy()
        decreases |Pages()|
      {
        var done := TruncateLast(removal);
        ListsPages();
        if done {
          return;
        }
      }
    }

    /** Truncation inside the open page, which is then closed. */
    method TruncateOpen(removal: int)
      requires Valid() && open.start < removal < open.end
      modifies this, repr
      ensures Valid() && !Unlisted() && contents == old(contents)[..removal] && fresh(repr - old(repr))
      ensures old(Roomy()) ==> Roomy()
    {
      CutOpen(removal);
      Rotate();
      UnlistedIff();
    }

    /** Truncation from the start of the open page or before it. */
    method DeletePages(removal: int)
      requires (Valid() || Detached()) && removal < |contents| && removal <= open.start
      modifies this, repr
      ensures Detached() && Unlisted() && fresh(repr - old(repr))
      ensures contents == old(contents)[..Max(0, removal)]
      ensures old(Roomy()) ==> Roomy()
    {
      ResetOpen();
      PrefixCut(contents, old(contents), Max(0, removal));
      TruncatePages(removal);
      UnlistedIff();
    }

    /**
     Removes every entry from an index on. All earlier reads are as before, every page still counts
     its bytes correctly, and no remaining space is negative. A listed open page stays listed, as
     the next append needs it, exactly when the index lies beyond its start: otherwise the loop unlists
     the new open page along with the old ones.
     */
    method TruncateSuffix(removal: int)
      requires Valid() || Detached()
      modifies this, repr
      ensures (Valid() || Detached()) && fresh(repr - old(repr))
      ensures contents == if removal >= |old(contents)| then old(contents) else old(contents)[..Max(0, removal)]
      ensures Valid() == !Unlisted() == (old(listed) && (removal >= |old(contents)| || removal > old(open.start)))
      ensures old(Roomy()) ==> Roomy()
    {
      if removal > logSize - 1 {
        UnlistedIff();
        return;
      }
      if removal > open.start {
        TruncateOpen(removal);
      } else {
        DeletePages(removal);
      }
    }

    // ---------------------------------------------------------------- restoring

    /** Lists a page read back from a closed file. */
    method ListClosedPage(page: Page)
      requires Readable() && !listed && page !in repr && page.start == |contents|
      requires page.end == page.start + |page.records| && page.records != []
      modifies this`indices, this`logSize, this`closed, this`repr, this`contents
      ensures Readable() && repr == old(repr) + {page} && closed == old(closed) + [page]
      ensures contents == old(contents) + EntriesOf(page.records)
    {
      FullEnds();
      if page.start !in indices {
        indices := indices[page.start := page];
      }
      IndexedPushed(old(indices), closed, page);
      logSize := logSize + |page.records|;
      contents := contents + EntriesOf(page.records);
      repr := repr + {page};
      closed := closed + [page];
      assert contents[..page.start] == old(contents) && closed[..|closed| - 1] == old(closed);
    }

    /** The map holds a page at the end of the log, and none that reaches beyond it. */
    ghost predicate Occupied()
      reads `indices, `contents, `repr, `logSize, indices.Values`records
    {
      && logSize in indices
      && forall k :: k in indices ==> indices[k] in repr && k + |indices[k].records| <= |contents|
    }

    lemma EmptyOccupies()
      requires Valid() && open.records == []
      ensures Occupied()
    {
      Reach();
      assert Pages()[|closed|] == open;
    }

    /** A page was made the open one, and listed if its key was free. */
    twostate predicate Added()
      reads `open, `contents, `logSize, `indices, `repr, repr`end, repr`records
    {
      && open !in old(repr) && repr == old(repr) + {open}
      && contents == old(contents) + EntriesOf(open.records) && logSize == |contents| == open.end
      && open.start == |old(contents)|
      && indices == (if open.start in old(indices) then old(indices) else old(indices)[open.start := open])
      && (forall p :: p in old(repr) ==> p.end == old(p.end) && p.records == old(p.records))
    }

    twostate lemma AddedOccupied()
      requires old(Occupied() && Counted()) && Added()
      ensures if open.records == [] then Occupied() && Unlisted() else Misses(|old(contents)|)
    {
    }

    twostate lemma AddedMisses(i: int)
      requires old(Misses(i)) && Added()
      ensures Misses(i)
    {
    }

    /** A page added to a full log whose open page was not listed is its listed open open. */
    twostate lemma AddedFirst()
      requires old(Readable() && !listed) && old(logSize !in indices) && Added()
      requires listed && closed == old(closed) && open.isOpen && open.maxFileSize == maxFileSize && open.byteOffset == 0
      requires open.end == open.start + |open.records|
      ensures Valid()
    {
      IndexedPushed(old(indices), closed, open);
      assert contents[..open.start] == old(contents);
      assert Closed(closed, contents[..open.start]) == old(Closed(closed, contents));
    }

    /** Makes a page the open one, and lists it unless its key is taken. */
    method ReplaceOpen(page: Page)
      requires Counted() && page !in repr && page.start == |contents| && page.end == page.start + |page.records|
      modifies this`indices, this`logSize, this`open, this`repr, this`contents
      ensures Added() && open == page && Counted()
    {
      open := page;
      if page.start !in indices {
        indices := indices[page.start := page];
      }
      logSize := logSize + |page.records|;
      contents := contents + EntriesOf(page.records);
      repr := repr + {page};
    }

    /**
     Makes a page read back from an open file the open page. It is listed if the map listed closed
     pages only; where the map already holds a page at the end of the log, its entries are missed.
     */
    method AddOpenPage(page: Page)
      requires Counted() && page !in repr && page.start == |contents|
      requires page.end == page.start + |page.records| && page.isOpen
      requires page.maxFileSize == maxFileSize && page.byteOffset == 0
      modifies this`indices, this`logSize, this`open, this`listed, this`repr, this`contents
      ensures Added() && open == page && Counted()
      ensures old(Readable() && !listed) ==> Valid()
      ensures old(Occupied()) ==>
        if page.records == [] then Occupied() && Unlisted() else Misses(|old(contents)|)
      ensures forall i :: old(Misses(i)) ==> Misses(i)
    {
      if Readable() && !listed {
        FullEnds();
      }
      ReplaceOpen(page);
      if old(Readable() && !listed) {
        listed := true;
        AddedFirst();
      }
      if old(Occupied()) {
        AddedOccupied();
      }
      forall i | old(Misses(i)) ensures Misses(i) {
        AddedMisses(i);
      }
    }
  }
}
