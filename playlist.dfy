/**
 * The directory scans behind `WavPlayer_Next` and `WavPlayer_Previous`.
 *
 * The `*.wav` entries of the root directory are a listing: a sequence of
 * names in directory order. A directory object is a cursor: the name of the
 * entry it read last (the `FILINFO`) and the index of the entry it reads next
 * (the `DIR`). Reading past the last entry yields the empty name and leaves the
 * cursor at the end; `f_rewinddir` moves it back to the first entry.
 *
 * Both operations walk two cursors in lock-step. `Next` starts its lead cursor
 * one entry ahead of the lag cursor and looks for the stored name under the lag
 * cursor; `Previous` does the mirror image. Both cursors that trail the search
 * wrap around at the end of the listing, except on the very first step.
 */
module Playlist {

  /** A file name as `f_findnext` reports it; the empty name marks the end of the directory. */
  type Name = string

  /** Names in a directory are non-empty and unique. */
  predicate WellFormed(listing: seq<Name>)
  {
    (forall i :: 0 <= i < |listing| ==> listing[i] != []) &&
    (forall i, j :: 0 <= i < j < |listing| ==> listing[i] != listing[j])
  }

  /** The name read at index pos: the entry there, or the empty name past the end. */
  function Entry(listing: seq<Name>, pos: nat): Name
  {
    if pos < |listing| then listing[pos] else []
  }

  /** A directory object together with the file information it last filled in. */
  datatype Cursor = Cursor(name: Name, pos: nat)

  /** `f_findnext`: read the entry at the cursor and move past it, staying put at the end. */
  function FindNext(listing: seq<Name>, c: Cursor): (d: Cursor)
    ensures d.name == Entry(listing, c.pos)
    ensures c.pos < |listing| ==> d.pos == c.pos + 1
    ensures c.pos >= |listing| ==> d.pos == c.pos
  {
    Cursor(Entry(listing, c.pos), if c.pos < |listing| then c.pos + 1 else c.pos)
  }

  /** `f_findfirst`: open the directory and read its first entry. */
  function FindFirst(listing: seq<Name>): (c: Cursor)
    ensures c.name == Entry(listing, 0) && c.pos <= |listing|
    ensures |listing| > 0 ==> c.pos == 1
  {
    FindNext(listing, Cursor([], 0))
  }

  /**
   * `f_findnext`, then `f_rewinddir` and `f_findnext` again when the end of the
   * directory was reached: the step of the trailing cursor.
   */
  function Advance(listing: seq<Name>, c: Cursor): (d: Cursor)
    ensures |listing| > 0 && c.pos < |listing| && listing[c.pos] != [] ==> d == Cursor(listing[c.pos], c.pos + 1)
    ensures |listing| > 0 && c.pos >= |listing| ==> d == Cursor(listing[0], 1)
  {
    var d := FindNext(listing, c);
    if d.name == [] then FindNext(listing, Cursor(d.name, 0)) else d
  }

  /** How a scan ends: whether the stored name was met, and the name the `gFileInfo` cursor then holds. */
  datatype Scan = Scan(found: bool, name: Name)

  /**
   * The loop of `WavPlayer_Next` from the state with lead cursor `lead`
   * (`gDir`) and lag cursor `lag` (`PrevFileDir`), looking for `current`.
   */
  function NextScan(listing: seq<Name>, current: Name, lead: Cursor, lag: Cursor): Scan
    requires lag.pos <= |listing|
    decreases |listing| - lag.pos
  {
    if lag.name == current then Scan(true, lead.name)
    else
      var lead' := Advance(listing, lead);
      var lag' := FindNext(listing, lag);
      if lag'.name == [] then Scan(false, lead'.name)
      else NextScan(listing, current, lead', lag')
  }

  /** `WavPlayer_Next` as a scan: the lead starts on the second entry, with no wrap check. */
  function NextFrom(listing: seq<Name>, current: Name): Scan
  {
    NextScan(listing, current, FindNext(listing, FindFirst(listing)), FindFirst(listing))
  }

  /**
   * The loop of `WavPlayer_Previous` from the state with lag cursor `lag`
   * (`gDir`) and lead cursor `lead` (`NextFileDir`), looking for `current`.
   */
  function PreviousScan(listing: seq<Name>, current: Name, lag: Cursor, lead: Cursor): Scan
    requires lag.pos <= |listing|
    decreases |listing| - lag.pos
  {
    if lead.name == current then Scan(true, lag.name)
    else
      var lead' := Advance(listing, lead);
      var lag' := FindNext(listing, lag);
      if lag'.name == [] then Scan(false, lag'.name)
      else PreviousScan(listing, current, lag', lead')
  }

  /** `WavPlayer_Previous` as a scan: the lead starts on the second entry, with no wrap check. */
  function PreviousFrom(listing: seq<Name>, current: Name): Scan
  {
    PreviousScan(listing, current, FindFirst(listing), FindNext(listing, FindFirst(listing)))
  }

  // ---------------------------------------------------------------------------
  // Cyclic successor and predecessor

  /** The cursor that has just read entry k. */
  function At(listing: seq<Name>, k: nat): Cursor
    requires k < |listing|
  {
    Cursor(listing[k], k + 1)
  }

  /** The index after i in a cyclic listing of n entries. */
  function Succ(n: nat, i: nat): (r: nat)
    requires i < n
    ensures r < n && r == (i + 1) % n
  {
    if i + 1 < n then i + 1 else 0
  }

  /** The index before i in a cyclic listing of n entries. */
  function Pred(n: nat, i: nat): (r: nat)
    requires i < n
    ensures r < n && Succ(n, r) == i
  {
    if i == 0 then n - 1 else i - 1
  }

  lemma PredIsMod(n: nat, i: nat)
    requires i < n
    ensures Pred(n, i) == (i - 1 + n) % n
  {
    if i == 0 {
      ModBelow(n - 1, n);
    } else {
      ModOnce(i - 1 + n, n);
    }
  }

  lemma ModBelow(a: int, n: int)
    requires 0 <= a < n
    ensures a % n == a
  {
  }

  lemma ModOnce(a: int, n: int)
    requires n <= a < 2 * n
    ensures a % n == a - n
  {
  }

  /** The trailing cursor that has read entry i steps to the cyclic successor. */
  lemma AdvanceAt(listing: seq<Name>, i: nat)
    requires WellFormed(listing) && i < |listing|
    ensures Advance(listing, At(listing, i)) == At(listing, Succ(|listing|, i))
  {
  }

  /**
   * From the state where the lag cursor has read entry k and the lead cursor
   * its cyclic successor, `Next` stops at the entry j >= k holding the stored
   * name and ends on the successor of j.
   */
  lemma {:induction false} NextScanFound(listing: seq<Name>, current: Name, k: nat, j: nat)
    requires WellFormed(listing) && k <= j < |listing| && listing[j] == current
    ensures NextScan(listing, current, At(listing, Succ(|listing|, k)), At(listing, k))
         == Scan(true, listing[Succ(|listing|, j)])
    decreases j - k
  {
    var n := |listing|;
    if k < j {
      assert listing[k] != current;
      AdvanceAt(listing, Succ(n, k));
      NextScanFound(listing, current, k + 1, j);
    }
  }

  /**
   * From the state where the lag cursor has read entry k and the lead cursor
   * its cyclic successor, `Next` for a name not among entries k.. ends without
   * a match on entry 1 (cyclically).
   */
  lemma {:induction false} NextScanMissing(listing: seq<Name>, current: Name, k: nat)
    requires WellFormed(listing) && k < |listing| && current !in listing[k..]
    ensures NextScan(listing, current, At(listing, Succ(|listing|, k)), At(listing, k))
         == Scan(false, listing[Succ(|listing|, 0)])
    decreases |listing| - k
  {
    var n := |listing|;
    assert listing[k] == listing[k..][0];
    AdvanceAt(listing, Succ(n, k));
    if k + 1 < n {
      assert listing[k + 1..] == listing[k..][1..];
      NextScanMissing(listing, current, k + 1);
    }
  }

  /**
   * From the state where the lag cursor has read entry k and the lead cursor
   * its cyclic successor, `Previous` stops at the first j >= k whose
   * successor holds the stored name and ends on entry j.
   */
  lemma {:induction false} PreviousScanFound(listing: seq<Name>, current: Name, k: nat, j: nat)
    requires WellFormed(listing) && k <= j < |listing| && listing[Succ(|listing|, j)] == current
    ensures PreviousScan(listing, current, At(listing, k), At(listing, Succ(|listing|, k))) == Scan(true, listing[j])
    decreases j - k
  {
    var n := |listing|;
    if k < j {
      assert Succ(n, k) != Succ(n, j);
      AdvanceAt(listing, Succ(n, k));
      PreviousScanFound(listing, current, k + 1, j);
    }
  }

  /**
   * From the state where the lag cursor has read entry k and the lead cursor
   * its cyclic successor, `Previous` for a name that no successor of an entry
   * k.. holds runs the lag cursor off the end and ends on the empty name.
   */
  lemma {:induction false} PreviousScanMissing(listing: seq<Name>, current: Name, k: nat)
    requires WellFormed(listing) && k < |listing|
    requires forall j :: k <= j < |listing| ==> listing[Succ(|listing|, j)] != current
    ensures PreviousScan(listing, current, At(listing, k), At(listing, Succ(|listing|, k))) == Scan(false, [])
    decreases |listing| - k
  {
    var n := |listing|;
    AdvanceAt(listing, Succ(n, k));
    if k + 1 < n {
      PreviousScanMissing(listing, current, k + 1);
    }
  }

  /** With two or more files, `Next` from the file at index i opens the file at index (i + 1) mod n. */
  lemma NextIsSuccessor(listing: seq<Name>, i: nat)
    requires WellFormed(listing) && |listing| >= 2 && i < |listing|
    ensures NextFrom(listing, listing[i]) == Scan(true, listing[(i + 1) % |listing|])
  {
    assert FindNext(listing, FindFirst(listing)) == At(listing, Succ(|listing|, 0));
    NextScanFound(listing, listing[i], 0, i);
  }

  /**
   * With two or more files, `Next` for a name that is not listed reports no
   * match and leaves the stored name on the second file.
   */
  lemma NextMissing(listing: seq<Name>, current: Name)
    requires WellFormed(listing) && |listing| >= 2 && current !in listing
    ensures NextFrom(listing, current) == Scan(false, listing[1])
  {
    assert FindNext(listing, FindFirst(listing)) == At(listing, Succ(|listing|, 0));
    assert listing[0..] == listing;
    NextScanMissing(listing, current, 0);
  }

  /** With two or more files, `Previous` from the file at index i opens the file at index (i - 1 + n) mod n. */
  lemma PreviousIsPredecessor(listing: seq<Name>, i: nat)
    requires WellFormed(listing) && |listing| >= 2 && i < |listing|
    ensures PreviousFrom(listing, listing[i]) == Scan(true, listing[(i - 1 + |listing|) % |listing|])
  {
    assert FindNext(listing, FindFirst(listing)) == At(listing, Succ(|listing|, 0));
    PreviousScanFound(listing, listing[i], 0, Pred(|listing|, i));
    PredIsMod(|listing|, i);
  }

  /**
   * `Previous` for a name that is not listed reports no match and leaves the
   * stored name empty, so a later `Next` or `Previous` scans for the empty name.
   */
  lemma PreviousMissing(listing: seq<Name>, current: Name)
    requires WellFormed(listing) && |listing| >= 2 && current !in listing
    ensures PreviousFrom(listing, current) == Scan(false, [])
  {
    assert FindNext(listing, FindFirst(listing)) == At(listing, Succ(|listing|, 0));
    PreviousScanMissing(listing, current, 0);
  }

  /** On an unchanged listing `Previous` undoes `Next`, and `Next` undoes `Previous`. */
  lemma NextPreviousInverse(listing: seq<Name>, i: nat)
    requires WellFormed(listing) && |listing| >= 2 && i < |listing|
    ensures PreviousFrom(listing, NextFrom(listing, listing[i]).name) == Scan(true, listing[i])
    ensures NextFrom(listing, PreviousFrom(listing, listing[i]).name) == Scan(true, listing[i])
  {
    var n := |listing|;
    NextIsSuccessor(listing, i);
    PreviousIsPredecessor(listing, Succ(n, i));
    PredIsMod(n, Succ(n, i));
    assert Pred(n, Succ(n, i)) == i;
    PreviousIsPredecessor(listing, i);
    PredIsMod(n, i);
    NextIsSuccessor(listing, Pred(n, i));
  }

  /** The name `Next` stores after k consecutive calls from `current` on an unchanged listing. */
  function NextTimes(listing: seq<Name>, current: Name, k: nat): Name
    decreases k
  {
    if k == 0 then current else NextTimes(listing, NextFrom(listing, current).name, k - 1)
  }

  /** k <= n calls of `Next` from the file at index i reach index i + k, wrapping once past the end. */
  lemma {:induction false} NextTimesCycles(listing: seq<Name>, i: nat, k: nat)
    requires WellFormed(listing) && |listing| >= 2 && i < |listing| && k <= |listing|
    ensures var n := |listing|;
            NextTimes(listing, listing[i], k) == listing[if i + k < n then i + k else i + k - n]
    decreases k
  {
    var n := |listing|;
    if k > 0 {
      NextIsSuccessor(listing, i);
      assert NextFrom(listing, listing[i]).name == listing[Succ(n, i)];
      NextTimesCycles(listing, Succ(n, i), k - 1);
    }
  }

  /** n calls of `Next` go once round the listing and back to the file they started from. */
  lemma NextRoundTrip(listing: seq<Name>, i: nat)
    requires WellFormed(listing) && |listing| >= 2 && i < |listing|
    ensures NextTimes(listing, listing[i], |listing|) == listing[i]
  {
    NextTimesCycles(listing, i, |listing|);
  }

  /** The name `Previous` stores after k consecutive calls from `current` on an unchanged listing. */
  function PreviousTimes(listing: seq<Name>, current: Name, k: nat): Name
    decreases k
  {
    if k == 0 then current else PreviousTimes(listing, PreviousFrom(listing, current).name, k - 1)
  }

  /** k <= n calls of `Previous` from the file at index i reach i - k, wrapping past the first entry once. */
  lemma {:induction false} PreviousTimesAt(listing: seq<Name>, i: nat, k: nat)
    requires WellFormed(listing) && |listing| >= 2 && i < |listing| && k <= |listing|
    ensures var n := |listing|;
            PreviousTimes(listing, listing[i], k) == listing[if k <= i then i - k else i - k + n]
    decreases k
  {
    var n := |listing|;
    if k > 0 {
      PreviousIsPredecessor(listing, i);
      PredIsMod(n, i);
      assert PreviousFrom(listing, listing[i]).name == listing[Pred(n, i)];
      PreviousTimesAt(listing, Pred(n, i), k - 1);
    }
  }

  /** The same position as a remainder: k <= n calls of `Previous` reach index (i - k + n) mod n. */
  lemma PreviousTimesCycles(listing: seq<Name>, i: nat, k: nat)
    requires WellFormed(listing) && |listing| >= 2 && i < |listing| && k <= |listing|
    ensures PreviousTimes(listing, listing[i], k) == listing[(i - k + |listing|) % |listing|]
  {
    var n := |listing|;
    PreviousTimesAt(listing, i, k);
    if k <= i {
      ModOnce(i - k + n, n);
    } else {
      ModBelow(i - k + n, n);
    }
  }

  /** n calls of `Previous` go once round the listing backwards and back to the file they started from. */
  lemma PreviousRoundTrip(listing: seq<Name>, i: nat)
    requires WellFormed(listing) && |listing| >= 2 && i < |listing|
    ensures PreviousTimes(listing, listing[i], |listing|) == listing[i]
  {
    PreviousTimesAt(listing, i, |listing|);
  }

  // ---------------------------------------------------------------------------
  // Short listings, where the missing wrap check on the first step shows

  /**
   * With a single file, `Next` from that file reports a match but hands the
   * empty name to `WavPlayer_PlayAudioFile`, so the file is not replayed.
   */
  lemma NextSingleton(a: Name)
    requires a != []
    ensures NextFrom([a], a) == Scan(true, [])
  {
  }

  /** With a single file, `Previous` from that file reports no match and empties the stored name. */
  lemma PreviousSingleton(a: Name)
    requires a != []
    ensures PreviousFrom([a], a) == Scan(false, [])
  {
  }

  /** With no files, both scans report a match only for the empty stored name, and then name nothing. */
  lemma EmptyListing(current: Name)
    ensures NextFrom([], current) == Scan(current == [], [])
    ensures PreviousFrom([], current) == Scan(current == [], [])
  {
  }
}
