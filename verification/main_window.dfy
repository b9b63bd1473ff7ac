/**
 * The recognition scan of gui/main_window.py's `open_image`: every database
 * entry, in iteration order, is matched against the query descriptors, and
 * the first entry with at least `MinMatchCount` matches is selected.
 *
 * The query descriptors come from a helper that core/matcher.py does not
 * define, so they are an input; the FLANN search is the `search` parameter.
 * The entry's descriptors are the query (source) side of the search.
 */
module MainWindowScan {
  import opened Wrappers
  import opened FeatureRecord
  import opened Matcher
  import opened EntryDatabase

  /**
   * The number of ratio-test matches of an entry against the query: one per
   * neighbour list, with the entry on the query side, that holds two
   * neighbours and passes at 7/10.
   */
  function MatchCount(e: Entry, query: seq<Descriptor>, search: KnnSearch): (n: nat)
    ensures var knn := search(Descriptors(e), query);
            n == |GoodIndicesBelow(knn, Lowe, |knn|)|
  {
    RatioFilterCount(search(Descriptors(e), query), Lowe);
    |RatioFilter(search(Descriptors(e), query), Lowe)|
  }

  /** The entry clears the threshold. */
  predicate Recognised(e: Entry, query: seq<Descriptor>, search: KnnSearch) {
    MatchCount(e, query, search) >= MinMatchCount
  }

  /** The position of the first recognised entry, if any. */
  function FirstRecognised(entries: seq<Entry>, query: seq<Descriptor>, search: KnnSearch): (r: Option<nat>)
    ensures r.Some? ==> r.value < |entries| && Recognised(entries[r.value], query, search)
    ensures r.Some? ==> forall j :: 0 <= j < r.value ==> !Recognised(entries[j], query, search)
    ensures r.None? ==> forall j :: 0 <= j < |entries| ==> !Recognised(entries[j], query, search)
  {
    if |entries| == 0 then None
    else if Recognised(entries[0], query, search) then Some(0)
    else
      match FirstRecognised(entries[1..], query, search)
      case None => None
      case Some(k) => Some(k + 1)
  }

  /**
   * The scan of `open_image`: returns the selected entry, or `None` for the
   * "no matching entry" message.
   */
  method OpenImage(db: Database, query: seq<Descriptor>, search: KnnSearch) returns (selected: Option<Entry>)
    requires Valid(db.state)
    ensures selected.Some? <==> FirstRecognised(Entries(db), query, search).Some?
    ensures selected.Some? ==> selected.value == Entries(db)[FirstRecognised(Entries(db), query, search).value]
  {
    var entries := Entries(db);
    var i := 0;
    while i < |entries|
      invariant 0 <= i <= |entries|
      invariant forall j :: 0 <= j < i ==> !Recognised(entries[j], query, search)
    {
      var entry := entries[i];
      var matches := Match(Descriptors(entry), query, search);
      if |matches| >= 10 {
        FirstRecognisedAt(entries, i, query, search);
        return Some(entry);
      }
      i := i + 1;
    }
    NoMatchIff(entries, query, search);
    return None;
  }

  /** The first recognised position is the one that is recognised after only unrecognised entries. */
  lemma FirstRecognisedAt(entries: seq<Entry>, i: nat, query: seq<Descriptor>, search: KnnSearch)
    requires i < |entries| && Recognised(entries[i], query, search)
    requires forall j :: 0 <= j < i ==> !Recognised(entries[j], query, search)
    ensures FirstRecognised(entries, query, search) == Some(i)
  {
  }

  /** The threshold is inclusive: ten matches select an entry, nine do not. */
  lemma ThresholdBoundary(e: Entry, query: seq<Descriptor>, search: KnnSearch)
    ensures MatchCount(e, query, search) == 10 ==> FirstRecognised([e], query, search) == Some(0)
    ensures MatchCount(e, query, search) == 9 ==> FirstRecognised([e], query, search) == None
  {
  }

  /**
   * First match wins: an entry that clears the threshold after entries that
   * do not is selected, whatever follows it — even entries that would match
   * better.
   */
  lemma FirstMatchWins(before: seq<Entry>, e: Entry, after: seq<Entry>, query: seq<Descriptor>, search: KnnSearch)
    requires forall j :: 0 <= j < |before| ==> !Recognised(before[j], query, search)
    requires Recognised(e, query, search)
    ensures FirstRecognised(before + [e] + after, query, search) == Some(|before|)
  {
    var all := before + [e] + after;
    assert all[|before|] == e;
    assert forall j :: 0 <= j < |before| ==> all[j] == before[j];
    FirstRecognisedAt(all, |before|, query, search);
  }

  /** Once an entry is selected, appending entries cannot change the selection. */
  lemma LaterEntriesIrrelevant(entries: seq<Entry>, after: seq<Entry>, query: seq<Descriptor>, search: KnnSearch)
    requires FirstRecognised(entries, query, search).Some?
    ensures FirstRecognised(entries + after, query, search) == FirstRecognised(entries, query, search)
  {
    var k := FirstRecognised(entries, query, search).value;
    var all := entries + after;
    assert forall j :: 0 <= j <= k ==> all[j] == entries[j];
    FirstRecognisedAt(all, k, query, search);
  }

  /** "No match" is reported exactly when no entry clears the threshold; an empty database never matches. */
  lemma NoMatchIff(entries: seq<Entry>, query: seq<Descriptor>, search: KnnSearch)
    ensures FirstRecognised(entries, query, search).None?
            <==> forall j :: 0 <= j < |entries| ==> !Recognised(entries[j], query, search)
    ensures FirstRecognised([], query, search).None?
  {
  }

  /**
   * The search returns at most one neighbour list per query-side descriptor
   * (none at all when the train side is empty), and the query side is the
   * entry: an entry cannot collect more matches than it has features, so an
   * entry with fewer than `MinMatchCount` features is never selected,
   * whatever the image.
   */
  lemma EntrySideBoundsCount(e: Entry, query: seq<Descriptor>, search: KnnSearch)
    requires |search(Descriptors(e), query)| <= |Descriptors(e)|
    ensures MatchCount(e, query, search) <= |e.features|
    ensures |e.features| < MinMatchCount ==> !Recognised(e, query, search)
  {
  }
}
