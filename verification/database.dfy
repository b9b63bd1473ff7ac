/**
 * The entry store of core/database.py: entries keyed by name, iterated in
 * first-insertion order like a Python `dict`, with the whole object written
 * to storage after every insertion.
 *
 * Storage is modelled as the snapshot last written: `persisted`. Pickling,
 * files and I/O errors are not modelled.
 */
module EntryDatabase {
  import opened Wrappers
  import opened FeatureRecord
  import ImageCache

  /** The two augment kinds of core/augments.py; augments carry no behaviour. */
  datatype AugmentType = TextAugment | BoxAugment

  datatype Augment = Augment(kind: AugmentType)

  /** One database record: name, image, augments, features and optional group. */
  datatype Entry = Entry(name: string, img: ImageCache.Image, augments: seq<Augment>,
                         features: seq<Feature>, group: Option<string>)

  /** `Entry(name, image, features, group=None)`: a new entry has no augments yet. */
  function NewEntry(name: string, image: ImageCache.Image, features: seq<Feature>,
                    group: Option<string> := None): (e: Entry)
    ensures e.augments == []
    ensures e.name == name && e.img == image && e.features == features && e.group == group
  {
    Entry(name, image, [], features, group)
  }

  /** The descriptor of every feature, in feature order. */
  function DescriptorsOf(fs: seq<Feature>): (des: seq<Descriptor>)
    ensures |des| == |fs|
    ensures forall i :: 0 <= i < |fs| ==> des[i] == fs[i].descriptor
  {
    if |fs| == 0 then [] else [fs[0].descriptor] + DescriptorsOf(fs[1..])
  }

  /** The keypoint every feature rebuilds as written, in feature order. */
  function KeyPointsOf(fs: seq<Feature>): (kps: seq<KeyPoint>)
    ensures |kps| == |fs|
    ensures forall i :: 0 <= i < |fs| ==> kps[i] == KeyPointAsWritten(fs[i])
  {
    if |fs| == 0 then [] else [KeyPointAsWritten(fs[0])] + KeyPointsOf(fs[1..])
  }

  /** The corrected rebuild of every feature's keypoint, in feature order. */
  function CorrectedKeyPointsOf(fs: seq<Feature>): (kps: seq<KeyPoint>)
    ensures |kps| == |fs|
    ensures forall i :: 0 <= i < |fs| ==> kps[i] == KeyPointOf(fs[i])
  {
    if |fs| == 0 then [] else [KeyPointOf(fs[0])] + CorrectedKeyPointsOf(fs[1..])
  }

  /** `Entry.descriptors`. */
  function Descriptors(e: Entry): (des: seq<Descriptor>)
    ensures |des| == |e.features|
  {
    DescriptorsOf(e.features)
  }

  /** `Entry.key_points`, as written: each feature's keypoint through the positional rebuild. */
  function KeyPoints(e: Entry): (kps: seq<KeyPoint>)
    ensures |kps| == |e.features|
  {
    KeyPointsOf(e.features)
  }

  /** `Entry.key_points` over the corrected rebuild. */
  function CorrectedKeyPoints(e: Entry): (kps: seq<KeyPoint>)
    ensures |kps| == |e.features|
  {
    CorrectedKeyPointsOf(e.features)
  }

  /**
   * The projections against the detector output an entry was built from:
   * `descriptors` gives back the detector's descriptors; `key_points`, as
   * written, gives back every keypoint shifted by one slot after its point;
   * the corrected projection gives back every keypoint up to its size.
   */
  lemma ProjectionsUndoPairing(name: string, image: ImageCache.Image, kps: seq<KeyPoint>, des: seq<Descriptor>,
                               fs: seq<Feature>)
    requires |fs| == |kps| == |des|
    requires forall i :: 0 <= i < |fs| ==> fs[i] == FeatureRecord.New(kps[i], des[i])
    ensures Descriptors(NewEntry(name, image, fs)) == des
    ensures forall i :: 0 <= i < |kps| ==>
              var back := KeyPoints(NewEntry(name, image, fs))[i];
              && back.pt == kps[i].pt
              && back.size == kps[i].angle && back.angle == kps[i].response
              && back.response == kps[i].octave as real && back.octave == kps[i].classId
              && back.classId == -1
    ensures forall i :: 0 <= i < |kps| ==>
              CorrectedKeyPoints(NewEntry(name, image, fs))[i] == kps[i].(size := UnstoredSize)
  {
    forall i | 0 <= i < |kps|
      ensures CorrectedKeyPoints(NewEntry(name, image, fs))[i] == kps[i].(size := UnstoredSize)
    {
      KeyPointRoundTrip(kps[i], des[i]);
    }
  }

  /** The state a database holds, and the state it writes to storage. */
  datatype State = State(filename: string, order: seq<string>, entries: map<string, Entry>)

  /** The live object and the snapshot last written to its file (`None` before the first save). */
  datatype Database = Database(state: State, persisted: Option<State>)

  /** Names are distinct, `order` lists exactly the stored names, and each entry sits under its own name. */
  predicate Valid(s: State) {
    && (forall i, j :: 0 <= i < j < |s.order| ==> s.order[i] != s.order[j])
    && (forall k :: k in s.entries ==> k in s.order)
    && (forall k :: k in s.order ==> k in s.entries)
    && (forall k :: k in s.entries ==> s.entries[k].name == k)
  }

  /** `Database(filename)`: empty, and nothing written yet. */
  function New(filename: string): (db: Database)
    ensures Valid(db.state)
    ensures db.state.filename == filename
    ensures db.state.entries == map[] && Entries(db) == []
    ensures db.persisted == None
  {
    Database(State(filename, [], map[]), None)
  }

  /**
   * `Database.connect(file)`: `stored` is the snapshot the file holds; the
   * loaded object is that snapshot. The model assumes `file` is the one named
   * by the snapshot's `filename`, so that the snapshot is also what that file
   * holds; the caller may open any file.
   */
  function Connect(stored: State): (db: Database)
    ensures db.state == stored && db.persisted == Some(stored)
  {
    Database(stored, Some(stored))
  }

  /** `save`: the whole state becomes the stored snapshot, and nothing else changes. */
  function Save(db: Database): (r: Database)
    ensures r.state == db.state
    ensures r.persisted == Some(db.state)
  {
    db.(persisted := Some(db.state))
  }

  /** The entries under `order`, in that order. */
  function ValuesInOrder(order: seq<string>, entries: map<string, Entry>): (es: seq<Entry>)
    requires forall k :: k in order ==> k in entries
    ensures |es| == |order|
    ensures forall i :: 0 <= i < |order| ==> es[i] == entries[order[i]]
  {
    if |order| == 0 then [] else [entries[order[0]]] + ValuesInOrder(order[1..], entries)
  }

  /** `entries`: the stored entries in first-insertion order. */
  function Entries(db: Database): (es: seq<Entry>)
    requires Valid(db.state)
    ensures |es| == |db.state.order|
    ensures forall i :: 0 <= i < |es| ==> es[i].name == db.state.order[i] && es[i] == db.state.entries[es[i].name]
  {
    ValuesInOrder(db.state.order, db.state.entries)
  }

  /** `entry(name)`: the entry stored under `name`, or `None`. */
  function Lookup(db: Database, name: string): (r: Option<Entry>)
    ensures r.Some? <==> name in db.state.entries
    ensures r.Some? ==> r.value == db.state.entries[name]
  {
    if name in db.state.entries then Some(db.state.entries[name]) else None
  }

  /**
   * `add_entry(e)`: stores `e` under its name, replacing any entry of that
   * name, then saves. A new name goes to the end of the order; a known name
   * keeps its place.
   */
  function AddEntry(db: Database, e: Entry): (r: Database)
    requires Valid(db.state)
    ensures Valid(r.state)
    ensures r.state.filename == db.state.filename
    ensures Lookup(r, e.name) == Some(e)
    ensures forall n :: n != e.name ==> Lookup(r, n) == Lookup(db, n)
    ensures e.name in db.state.entries ==> r.state.order == db.state.order
    ensures e.name !in db.state.entries ==> r.state.order == db.state.order + [e.name]
    ensures r.persisted == Some(r.state)
  {
    var s := db.state;
    var order := if e.name in s.entries then s.order else s.order + [e.name];
    Save(Database(State(s.filename, order, s.entries[e.name := e]), db.persisted))
  }

  /** The listed entries and the lookups agree: the i-th entry is the one stored under the i-th name. */
  lemma EntriesAgreeWithLookup(db: Database)
    requires Valid(db.state)
    ensures |Entries(db)| == |db.state.entries|
    ensures forall i :: 0 <= i < |Entries(db)| ==> Lookup(db, Entries(db)[i].name) == Some(Entries(db)[i])
    ensures forall n :: Lookup(db, n).Some? ==> Lookup(db, n).value in Entries(db)
  {
    EntryCount(db.state);
    var es := Entries(db);
    forall n | Lookup(db, n).Some?
      ensures Lookup(db, n).value in es
    {
      var i :| 0 <= i < |db.state.order| && db.state.order[i] == n;
      assert es[i] == db.state.entries[n];
    }
  }

  /** A valid state holds exactly as many entries as it lists names. */
  lemma EntryCount(s: State)
    requires Valid(s)
    ensures |s.entries| == |s.order|
  {
    DistinctCardinality(s.order);
    var names := set k | k in s.order;
    assert s.entries.Keys == names;
    assert |s.entries| == |s.entries.Keys|;
  }

  /** A sequence of distinct elements has as many elements as its set. */
  lemma {:induction false} DistinctCardinality<T>(xs: seq<T>)
    requires forall i, j :: 0 <= i < j < |xs| ==> xs[i] != xs[j]
    ensures |set x | x in xs| == |xs|
    decreases |xs|
  {
    if |xs| > 0 {
      var tail := xs[1..];
      DistinctCardinality(tail);
      assert (set x | x in xs) == {xs[0]} + (set x | x in tail);
      assert xs[0] !in tail;
    }
  }

  /** Adding a new name appends its entry to the iteration. */
  lemma AddNewAppends(db: Database, e: Entry)
    requires Valid(db.state)
    requires Lookup(db, e.name) == None
    ensures Entries(AddEntry(db, e)) == Entries(db) + [e]
  {
  }

  /**
   * Re-adding a known name replaces its entry in place: the count does not
   * grow, the replaced entry keeps its position, every other position keeps
   * its entry.
   */
  lemma ReAddKeepsPosition(db: Database, e: Entry, i: nat)
    requires Valid(db.state)
    requires i < |db.state.order| && db.state.order[i] == e.name
    ensures |Entries(AddEntry(db, e))| == |Entries(db)|
    ensures Entries(AddEntry(db, e))[i] == e
    ensures forall j :: 0 <= j < |Entries(db)| && j != i ==> Entries(AddEntry(db, e))[j] == Entries(db)[j]
  {
    var s := db.state;
    forall j | 0 <= j < |s.order| && j != i
      ensures Entries(AddEntry(db, e))[j] == Entries(db)[j]
    {
      assert s.order[j] != e.name;
    }
  }

  /**
   * Every insertion is durable: loading the file written by `add_entry`
   * gives back the whole state, including the new entry.
   */
  lemma LoadAfterAdd(db: Database, e: Entry)
    requires Valid(db.state)
    ensures AddEntry(db, e).persisted.Some?
    ensures Connect(AddEntry(db, e).persisted.value) == AddEntry(db, e)
    ensures Lookup(Connect(AddEntry(db, e).persisted.value), e.name) == Some(e)
  {
  }
}
