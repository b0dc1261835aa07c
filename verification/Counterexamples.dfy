/** Inputs at which properties one would expect fail, each the smallest of its family. */
module Counterexamples {
  import opened Types
  import opened Offsets
  import opened PagedLog
  import CC = ClusterConfiguration

  /** An entry larger than a whole file is the first that is appended: it cannot be read back. */
  method OversizeMissed(e: Entry) returns (log: PersistedLog)
    ensures fresh(log) && log.contents == [e] && log.Misses(0) && !log.Readable()
  {
    log := new PersistedLog((x: Entry) => 2, 1);
    var index := log.Append(e);
  }

  /** One entry is appended and truncated; the next is not found, although both fit their page. */
  method AppendAfterTruncationMissed(e: Entry, f: Entry) returns (log: PersistedLog)
    ensures fresh(log) && log.contents == [f] && log.Misses(0) && !log.Readable()
  {
    log := new PersistedLog((x: Entry) => 1, 2);
    var first := log.Append(e);
    assert log.Valid() && log.contents == [e];
    log.TruncateSuffix(0);
    assert log.Detached() && log.contents == [];
    var second := log.Append(f);
  }

  /** The length of an entry of 128 bytes takes two bytes, and the reader allows for one. */
  lemma LongEntryMisplaced(e: Entry)
    ensures var size := (x: Entry) => 128; OffsetRead(size, [e], 0) == 1 && FileBytes(size, []) == 0
  {
    var size := (x: Entry) => 128;
    assert PrefixLength(128) == 1 + PrefixLength(1) == 2;
    assert [e][..0] == [] && [e][..1] == [e];
    assert FileBytes(size, [e]) == FileBytes(size, [e][..0]) + 2 + 128;
  }

  /** Two entries of one byte are written; truncating the second leaves neither in the file. */
  lemma CutLosesBoth(e: Entry, f: Entry)
    ensures var size, records := (x: Entry) => 1, [Record(0, e), Record(1, f)];
      Whole(size, EntriesOf(records), records[1].offset) == 0
  {
    var size, records := (x: Entry) => 1, [Record(0, e), Record(1, f)];
    assert records[..1] == [records[0]];
    assert Bytes(size, records[..1]) == 1;
    CutWrittenIff(size, records, 1);
  }

  /** The only entry is a configuration; truncating it leaves it in the index. */
  lemma TruncatedConfigurationStays(prev: seq<Addr>, next: seq<Addr>)
    ensures var log, index := [Entry(0, Configuration(prev, next))], map[0 := CC.ConfigOf(Configuration(prev, next))];
      CC.Agrees(index, log) && !CC.Agrees(CC.Truncate(index, 0), [])
  {
    var log, index := [Entry(0, Configuration(prev, next))], map[0 := CC.ConfigOf(Configuration(prev, next))];
    CC.TruncateAgreesIff(index, log, 0);
    assert log[..0] == [];
  }
}
