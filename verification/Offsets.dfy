/** Where entries lie in a file: what the writer counts, what the reader computes, and what a cut leaves. */
module Offsets {
  import opened Types
  import opened PagedLog

  /** The bytes of the length that precedes an entry in a file, seven bits to a byte. */
  function PrefixLength(n: nat): (r: nat)
    ensures r >= 1
  {
    if n < 128 then 1 else 1 + PrefixLength(n / 128)
  }

  /** Where the entries of a file end. */
  function FileBytes(size: Entry -> nat, entries: seq<Entry>): nat {
    if entries == [] then 0
    else
      var e := entries[|entries| - 1];
      FileBytes(size, entries[..|entries| - 1]) + PrefixLength(size(e)) + size(e)
  }

  /** The offset that the reader computes for an entry, taking its length for one byte. */
  function OffsetRead(size: Entry -> nat, entries: seq<Entry>, i: nat): int
    requires i < |entries|
  {
    FileBytes(size, entries[..i + 1]) - size(entries[i]) - 1
  }

  /** That offset is where the entry starts in the file if and only if the entry is short. */
  lemma OffsetReadIff(size: Entry -> nat, entries: seq<Entry>, i: nat)
    requires i < |entries|
    ensures OffsetRead(size, entries, i) == FileBytes(size, entries[..i]) <==> size(entries[i]) < 128
  {
    assert entries[..i + 1][..i] == entries[..i];
  }

  /** Reads a file's entries back, at the offsets that the reader computes. */
  method LoadLogEntries(size: Entry -> nat, entries: seq<Entry>) returns (records: seq<Record>)
    ensures EntriesOf(records) == entries
    ensures forall i :: 0 <= i < |records| ==> records[i].offset == OffsetRead(size, entries, i)
  {
    var byteCount := 0;
    records := [];
    for i := 0 to |entries|
      invariant |records| == i && byteCount == FileBytes(size, entries[..i])
      invariant forall j :: 0 <= j < i ==> records[j] == Record(OffsetRead(size, entries, j), entries[j])
    {
      assert entries[..i + 1][..i] == entries[..i];
      byteCount := byteCount + PrefixLength(size(entries[i])) + size(entries[i]);
      var offset := byteCount - size(entries[i]) - 1;
      records := records + [Record(offset, entries[i])];
    }
  }

  // ---------------------------------------------------------------- a file cut by a truncation

  lemma {:induction false} FileGrows(size: Entry -> nat, entries: seq<Entry>, k: nat)
    requires k < |entries|
    ensures FileBytes(size, entries[..k]) < FileBytes(size, entries)
  {
    var n := |entries| - 1;
    if k < n {
      FileGrows(size, entries[..n], k);
      assert entries[..n][..k] == entries[..k];
    }
  }

  /** The entries that the first `n` bytes of a file hold whole; the reader stops at the first that is not. */
  function Whole(size: Entry -> nat, entries: seq<Entry>, n: int): (r: nat)
    requires n >= 0
    ensures r <= |entries| && FileBytes(size, entries[..r]) <= n
    ensures r < |entries| ==> n < FileBytes(size, entries[..r + 1])
  {
    if FileBytes(size, entries) <= n then
      assert entries[..|entries|] == entries;
      |entries|
    else
      var r := Whole(size, entries[..|entries| - 1], n);
      assert entries[..|entries| - 1][..r] == entries[..r];
      assert if r < |entries| - 1 then entries[..|entries| - 1][..r + 1] == entries[..r + 1]
        else entries[..r + 1] == entries;
      r
  }

  lemma WholeIs(size: Entry -> nat, entries: seq<Entry>, n: int, k: nat)
    requires n >= 0 && k < |entries|
    ensures Whole(size, entries, n) == k <==> FileBytes(size, entries[..k]) <= n < FileBytes(size, entries[..k + 1])
    ensures Whole(size, entries, n) < k <==> n < FileBytes(size, entries[..k])
  {
    var r := Whole(size, entries, n);
    if r < k {
      if r + 1 < k {
        FileGrows(size, entries[..k], r + 1);
        assert entries[..k][..r + 1] == entries[..r + 1];
      }
    } else if r > k {
      if k + 1 < r {
        FileGrows(size, entries[..r], k + 1);
        assert entries[..r][..k + 1] == entries[..k + 1];
      }
      FileGrows(size, entries[..k + 1], k);
      assert entries[..k + 1][..k] == entries[..k];
    }
  }

  /** The bytes that a page counts leave out the lengths in its file. */
  lemma {:induction false} LengthsUncounted(size: Entry -> nat, records: seq<Record>)
    ensures Bytes(size, records) + |records| <= FileBytes(size, EntriesOf(records))
  {
    if records != [] {
      var n := |records| - 1;
      LengthsUncounted(size, records[..n]);
      assert EntriesOf(records)[..n] == EntriesOf(records[..n]);
    }
  }

  /**
   Cutting a file at an offset that the writer counted is too early: the entries before it are all
   left in the file if and only if there are none, since the writer leaves out their lengths.
   */
  lemma CutWrittenIff(size: Entry -> nat, records: seq<Record>, k: nat)
    requires k < |records| && records[k].offset == Bytes(size, records[..k])
    ensures Whole(size, EntriesOf(records), records[k].offset) == k <==> k == 0
    ensures Whole(size, EntriesOf(records), records[k].offset) <= k
  {
    LengthsUncounted(size, records[..k]);
    assert EntriesOf(records)[..k] == EntriesOf(records[..k]);
    WholeIs(size, EntriesOf(records), records[k].offset, k);
    FileGrows(size, EntriesOf(records)[..1], 0);
    assert EntriesOf(records)[..1][..0] == EntriesOf(records)[..0];
  }

  /**
   Cutting a file at an offset that the reader computed leaves exactly the entries before it, also
   where the offset is not the start of its entry.
   */
  lemma CutReadKeeps(size: Entry -> nat, entries: seq<Entry>, k: nat)
    requires k < |entries|
    ensures OffsetRead(size, entries, k) >= 0 && Whole(size, entries, OffsetRead(size, entries, k)) == k
  {
    assert entries[..k + 1][..k] == entries[..k];
    WholeIs(size, entries, OffsetRead(size, entries, k), k);
  }
}
