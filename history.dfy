/** The in-memory part of `TranscriptionHistory`
    (src-tauri/src/modules/storage/history.rs): a log of transcriptions kept
    newest first and capped at `max_entries`, with delete-by-id and the word
    counter used for each entry. */
module History {
  import opened Wrappers
  import opened Seqs
  import opened Strings
  import Sorting

  datatype TranscriptionEntry = TranscriptionEntry(
    id: string,
    timestamp: int,
    transcribedText: string,
    durationMs: nat,
    success: bool,
    processingTimeMs: nat,
    characterCount: nat,
    wordCount: nat)

  /** The comparator `b.timestamp.cmp(&a.timestamp)`: newer entries first. */
  predicate NewestFirst(a: TranscriptionEntry, b: TranscriptionEntry)
  {
    a.timestamp >= b.timestamp
  }

  lemma NewestFirstIsPreorder()
    ensures Sorting.TotalPreorder(NewestFirst)
  {
  }

  const DefaultMaxEntries: nat := 1000

  /** The entries after `add_entry`: push, drop from the front down to
      `maxEntries`, then sort newest first. */
  function Added(entries: seq<TranscriptionEntry>, maxEntries: nat, entry: TranscriptionEntry): seq<TranscriptionEntry>
  {
    Sorting.Sort(KeepLast(entries + [entry], maxEntries), NewestFirst)
  }

  /** After `add_entry` the log is ordered newest first, and entries with
      equal timestamps keep their order from before the sort. */
  lemma AddedSortedAndStable(entries: seq<TranscriptionEntry>, maxEntries: nat, entry: TranscriptionEntry, other: TranscriptionEntry)
    ensures Sorting.SortedBy(Added(entries, maxEntries, entry), NewestFirst)
    ensures Sorting.TiedWith(Added(entries, maxEntries, entry), other, NewestFirst)
         == Sorting.TiedWith(KeepLast(entries + [entry], maxEntries), other, NewestFirst)
  {
    NewestFirstIsPreorder();
    Sorting.SortSorted(KeepLast(entries + [entry], maxEntries), NewestFirst);
    Sorting.SortStable(KeepLast(entries + [entry], maxEntries), other, NewestFirst);
  }

  /** A log within a positive cap stays within it and holds the new entry;
      below the cap nothing is dropped. */
  lemma AddedBounded(entries: seq<TranscriptionEntry>, maxEntries: nat, entry: TranscriptionEntry)
    requires |entries| <= maxEntries && maxEntries >= 1
    ensures |Added(entries, maxEntries, entry)| <= maxEntries
    ensures entry in Added(entries, maxEntries, entry)
    ensures |entries| < maxEntries ==>
      multiset(Added(entries, maxEntries, entry)) == multiset(entries) + multiset{entry}
  {
    var kept := KeepLast(entries + [entry], maxEntries);
    Sorting.SortPermutation(kept, NewestFirst);
    assert kept[|kept| - 1] == entry;
    assert entry in multiset(kept);
    assert entry in multiset(Added(entries, maxEntries, entry));
  }

  /** Trimming runs before sorting and removes index 0 of the old list: on a
      full log that is sorted newest first, the entry dropped is the newest
      previous one, not the oldest. */
  lemma AddedToFullLogDropsNewest(entries: seq<TranscriptionEntry>, maxEntries: nat, entry: TranscriptionEntry)
    requires |entries| == maxEntries >= 1
    ensures multiset(Added(entries, maxEntries, entry)) == multiset(entries[1..]) + multiset{entry}
  {
    assert KeepLast(entries + [entry], maxEntries) == entries[1..] + [entry];
    Sorting.SortPermutation(entries[1..] + [entry], NewestFirst);
  }

  /** An illustration of `AddedToFullLogDropsNewest`: a full log of two,
      timestamps 5 and 3, receiving an entry at 10 keeps the entries at 10
      and 3: the one at 5 is dropped. */
  lemma AddedToFullLogExample(a: TranscriptionEntry, b: TranscriptionEntry, c: TranscriptionEntry)
    requires a.timestamp == 5 && b.timestamp == 3 && c.timestamp == 10
    ensures Added([a, b], 2, c) == [c, b]
  {
    assert KeepLast([a, b] + [c], 2) == [b, c];
    assert Sorting.Sort([b], NewestFirst) == [b];
    assert [b, c][..1] == [b];
    assert Sorting.Sort([b, c], NewestFirst) == Sorting.Insert([b], c, NewestFirst);
  }

  class TranscriptionHistory {
    var entries: seq<TranscriptionEntry>
    var maxEntries: nat

    /** `TranscriptionHistory::default()`. */
    constructor ()
      ensures entries == [] && maxEntries == DefaultMaxEntries
    {
      entries := [];
      maxEntries := DefaultMaxEntries;
    }

    method AddEntry(entry: TranscriptionEntry)
      modifies this
      ensures maxEntries == old(maxEntries)
      ensures entries == Added(old(entries), maxEntries, entry)
    {
      entries := entries + [entry];
      if |entries| > maxEntries {
        entries := entries[|entries| - maxEntries..];
      }
      entries := Sorting.Sort(entries, NewestFirst);
    }

    /** `get_recent_entries`: the first `min(limit, len)` entries, in order. */
    function RecentEntries(limit: nat): (r: seq<TranscriptionEntry>)
      reads this
      ensures |r| == Min(limit, |entries|)
      ensures forall i :: 0 <= i < |r| ==> r[i] == entries[i]
    {
      if limit < |entries| then entries[..limit] else entries
    }

    /** `delete_entry`: removes the first entry carrying `id`, if any. */
    method DeleteEntry(id: string) returns (deleted: bool)
      modifies this
      ensures maxEntries == old(maxEntries)
      ensures deleted <==> exists i :: 0 <= i < |old(entries)| && old(entries)[i].id == id
      ensures deleted ==> (exists p :: 0 <= p < |old(entries)|
                             && old(entries)[p].id == id
                             && (forall j :: 0 <= j < p ==> old(entries)[j].id != id)
                             && entries == RemoveAt(old(entries), p))
      ensures !deleted ==> entries == old(entries)
    {
      var pos := FirstIndex(entries, (e: TranscriptionEntry) => e.id == id);
      if pos.Some? {
        entries := RemoveAt(entries, pos.value);
        deleted := true;
      } else {
        deleted := false;
      }
    }
  }

  /** Marks the last character of each maximal run of non-whitespace. */
  predicate WordEndsAtStart(s: string)
  {
    |s| > 0 && !IsWhitespace(s[0]) && (|s| == 1 || IsWhitespace(s[1]))
  }

  /** `str::split_whitespace().count()`: the number of maximal runs of
      non-whitespace characters. */
  function CountWords(s: string): nat
  {
    if s == [] then 0 else (if WordEndsAtStart(s) then 1 else 0) + CountWords(s[1..])
  }

  /** `estimate_word_count`. */
  function EstimateWordCount(text: string): nat
  {
    if text == [] then 0 else CountWords(text)
  }

  /** No words exactly when the text is empty or all whitespace. */
  lemma {:induction false} NoWordsIffBlank(s: string)
    ensures EstimateWordCount(s) == 0 <==> IsBlank(s)
  {
    if s != [] {
      CountWordsZeroIffBlank(s);
    }
  }

  lemma {:induction false} CountWordsZeroIffBlank(s: string)
    ensures CountWords(s) == 0 <==> IsBlank(s)
  {
    if s != [] {
      var rest := s[1..];
      CountWordsZeroIffBlank(rest);
      assert IsBlank(s) <==> IsWhitespace(s[0]) && IsBlank(rest) by {
        assert forall i :: 0 < i < |s| ==> s[i] == rest[i - 1];
      }
      if |s| > 1 {
        assert rest[0] == s[1];
      }
    }
  }

  /** A non-empty run without whitespace is one word. */
  lemma {:induction false} SingleWord(w: string)
    requires w != [] && forall i :: 0 <= i < |w| ==> !IsWhitespace(w[i])
    ensures EstimateWordCount(w) == 1
  {
    if |w| > 1 {
      SingleWord(w[1..]);
    } else {
      assert w[1..] == [] && CountWords(w[1..]) == 0;
    }
  }

  /** A whitespace character separates the words on either side of it. */
  lemma {:induction false} WordsSplitAtWhitespace(a: string, c: char, b: string)
    requires IsWhitespace(c)
    ensures CountWords(a + [c] + b) == CountWords(a) + CountWords(b)
  {
    if a == [] {
      assert a + [c] + b == [c] + b;
      assert ([c] + b)[1..] == b;
    } else {
      WordsSplitAtWhitespace(a[1..], c, b);
      assert (a + [c] + b)[1..] == a[1..] + [c] + b;
      assert WordEndsAtStart(a + [c] + b) == WordEndsAtStart(a);
    }
  }
}
