/**
 * The list of desktop entries of the players the applet has met, offered in
 * the "Launch player" menu. Each player reports its desktop entry once it is
 * known; the applet keeps each entry once.
 */
module KnownPlayers {

  /** No entry is listed twice. */
  predicate Distinct(entries: seq<string>) {
    forall i, j | 0 <= i < j < |entries| :: entries[i] != entries[j]
  }

  /** The list after `entry` was reported: unchanged if known, otherwise extended at the end. */
  function Remember(entries: seq<string>, entry: string): (r: seq<string>)
    ensures entry in r
    ensures entries <= r
    ensures forall e | e in r :: e in entries || e == entry
  {
    if entry in entries then entries else entries + [entry]
  }

  /** Reporting the same entry twice is the same as reporting it once. */
  lemma RememberIdempotent(entries: seq<string>, entry: string)
    ensures Remember(Remember(entries, entry), entry) == Remember(entries, entry)
  {
  }

  /** Remembering keeps the list free of duplicates. */
  lemma RememberKeepsDistinct(entries: seq<string>, entry: string)
    requires Distinct(entries)
    ensures Distinct(Remember(entries, entry))
  {
  }

  /** The list grows by at most one entry per report, and only with a new one. */
  lemma RememberGrowsByNew(entries: seq<string>, entry: string)
    ensures |Remember(entries, entry)| == |entries| + (if entry in entries then 0 else 1)
  {
  }

  class KnownPlayerList {
    /** `_knownPlayers`, in the order the entries were reported. */
    var entries: seq<string>

    constructor (saved: seq<string>)
      ensures entries == saved
    {
      entries := saved;
    }

    /**
     * `passDesktopEntry`: scans the list for the entry and pushes it when
     * absent. `added` tells whether the list was then saved and the launcher
     * menu rebuilt.
     */
    method PassDesktopEntry(entry: string) returns (added: bool)
      modifies this
      ensures entries == Remember(old(entries), entry)
      ensures added <==> entry !in old(entries)
    {
      var i := 0;
      var n := |entries|;
      while i < n
        invariant 0 <= i <= n == |entries|
        invariant forall k | 0 <= k < i :: entries[k] != entry
      {
        if entries[i] == entry {
          return false;
        }
        i := i + 1;
      }
      entries := entries + [entry];
      added := true;
    }
  }

  /** Reporting a sequence of entries, one after the other. */
  function RememberAll(entries: seq<string>, reported: seq<string>): seq<string>
    decreases |reported|
  {
    if reported == [] then entries else RememberAll(Remember(entries, reported[0]), reported[1..])
  }

  /** Whatever is reported, the list stays duplicate-free and holds exactly the old and the reported entries. */
  lemma {:induction false} RememberAllKeepsDistinct(entries: seq<string>, reported: seq<string>)
    requires Distinct(entries)
    decreases |reported|
    ensures Distinct(RememberAll(entries, reported))
    ensures forall e :: e in RememberAll(entries, reported) <==> e in entries || e in reported
  {
    if reported != [] {
      RememberKeepsDistinct(entries, reported[0]);
      RememberAllKeepsDistinct(Remember(entries, reported[0]), reported[1..]);
      assert forall e :: e in reported <==> e == reported[0] || e in reported[1..];
    }
  }
}
