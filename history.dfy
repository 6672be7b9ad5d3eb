/** The backup history: a log of (time, status, message) entries in the order
    they were logged, holding at most MaxHistory of the latest ones. */
module History {

  /** The status codes a history entry carries. */
  datatype Status = Started | Finished | Warning | Failed

  datatype Entry = Entry(time: int, status: Status, message: string)

  const MaxHistory: nat := 100

  /** The latest MaxHistory entries of h, or all of h when it is short enough. */
  function Trimmed(h: seq<Entry>): (r: seq<Entry>)
    ensures |r| <= MaxHistory
  {
    h[|h| - Kept(|h|)..]
  }

  /** How many of n entries the history keeps. */
  function Kept(n: nat): nat {
    if n <= MaxHistory then n else MaxHistory
  }

  /** The history after logging each of `entries` in turn, starting from h. */
  function LogAll(h: seq<Entry>, entries: seq<Entry>): seq<Entry>
    decreases |entries|
  {
    if entries == [] then h
    else LogAll(Trimmed(h + [entries[0]]), entries[1..])
  }

  /** Logging one entry: with room it is appended; into a full log it is
      appended and exactly the oldest entry is dropped. */
  lemma LogOneEntry(h: seq<Entry>, e: Entry)
    requires |h| <= MaxHistory
    ensures |h| < MaxHistory ==> Trimmed(h + [e]) == h + [e]
    ensures |h| == MaxHistory ==> Trimmed(h + [e]) == h[1..] + [e]
  {
    if |h| == MaxHistory {
      assert (h + [e])[1..] == h[1..] + [e];
    }
  }

  /** Trimming before appending more loses nothing that trimming afterwards keeps. */
  lemma TrimmedAbsorbs(x: seq<Entry>, y: seq<Entry>)
    ensures Trimmed(Trimmed(x) + y) == Trimmed(x + y)
  {
    if |x| > MaxHistory {
      var t := Trimmed(x) + y;
      assert t == (x + y)[|x| - MaxHistory..];
      assert t[|t| - MaxHistory..] == (x + y)[|x| + |y| - MaxHistory..];
    }
  }

  /** Logging one entry at a time is trimming once at the end: the history is
      always the latest MaxHistory of everything logged, in logging order. */
  lemma {:induction false} LogAllKeepsLatest(h: seq<Entry>, entries: seq<Entry>)
    requires entries != []
    ensures LogAll(h, entries) == Trimmed(h + entries)
    decreases |entries|
  {
    var e, rest := entries[0], entries[1..];
    assert entries == [e] + rest;
    assert LogAll(h, entries) == LogAll(Trimmed(h + [e]), rest);
    if rest != [] {
      LogAllKeepsLatest(Trimmed(h + [e]), rest);
      TrimmedAbsorbs(h + [e], rest);
    }
    assert h + [e] + rest == h + entries;
  }

  /** The test that logs 110 entries into an empty history: 100 remain, the
      eleventh logged first and the last logged last. */
  lemma HundredAndTenLogged(entries: seq<Entry>)
    requires |entries| == MaxHistory + 10
    ensures var h := LogAll([], entries);
      |h| == MaxHistory && h == entries[10..] &&
      h[0] == entries[10] && h[MaxHistory - 1] == entries[MaxHistory + 9]
  {
    LogAllKeepsLatest([], entries);
    assert [] + entries == entries;
  }

}
