# Image recognition core — a Dafny model

This project models the decision logic underneath a desktop application that
recognises a captured image against a small database of annotated images.
Most of the application is Qt UI and OpenCV calls. The model covers the logic
between those calls:

- `ImageCache` (core/image.py): an image wraps a source array that the code
  never reassigns or mutates. Its grayscale and RGB views are computed on
  first read and memoised. OpenCV's
  colour conversions are function parameters.
- `FeatureRecord` (core/feature.py): a keypoint is flattened into six stored
  fields next to its descriptor. A keypoint is rebuilt from those fields by
  calling the OpenCV constructor positionally.
- `Matcher` (core/matcher.py): detector output is paired into features, and
  Lowe's ratio test reduces FLANN's two-nearest-neighbour lists to the
  accepted matches. ORB distances are Hamming counts, so they are natural
  numbers and the ratio 0.7 is the fraction 7/10 (`10 * m < 7 * n`).
- `EntryDatabase` (core/database.py): entries are keyed by name and iterated
  in first-insertion order, like a Python `dict`. Every `add_entry` writes the
  whole object to storage. Storage is the `persisted` snapshot.
- `MainWindowScan` (gui/main_window.py): the recognition scan of `open_image`.
  It selects the first entry, in iteration order, with at least 10 ratio-test
  matches against the query.

Foreign calls are inputs to the model:

- ORB detection: the keypoints and the optional descriptor array.
- The FLANN search: one fixed function from (query, train) descriptors to
  neighbour lists.
- `cv2.imread`: the optional decoded array.
- `cv2.cvtColor`: two conversion functions.

Every stateful read returns the value together with the updated object.

Behaviours of the code that the model keeps:

- `Database(filename)` does not save, and `Database.connect` only unpickles
  an existing file. `EntryDatabase.New` therefore has `persisted == None`.
- When ORB finds no keypoint, OpenCV returns no descriptor array, and
  `zip(key_points, None)` raises a `TypeError`. See `Matcher.Features`.
- An unreadable image file makes `cv2.imread` return `None`. The constructor's
  type assertion then fails with an assertion error. See
  `ImageCache.FromFile`.
- A colour conversion that raises `cv2.error` propagates out of `grayscale`
  or `rgb` and leaves the slot empty, so the next read converts again. See
  `ImageCache.Grayscale`.
- The scan passes the entry's descriptors as the query (source) side of the
  search and the captured image's descriptors as the train side. The number of
  matches is therefore bounded by the entry's feature count. See
  `MainWindowScan.EntrySideBoundsCount`.
- `Entry.key_points` rebuilds each keypoint through the positional call of
  `Feature.key_point`, so its keypoints come back shifted (see "## Findings").

## Model

| member | source | states |
|---|---|---|
| ImageCache.New | core/image.py:7-11 | Construction succeeds exactly for array data; anything else fails with the assertion's message. A new image holds the given array, both caches start empty, and so they agree with every pair of conversions. |
| ImageCache.FromFile | core/image.py:13-15 | Loading succeeds exactly when the decoder produced an array, and the image holds that array. An undecodable file fails the constructor's assertion. |
| ImageCache.DimensionsOfNew | core/image.py:17-19 | `dimensions` is the shape of the array the image was built from, and it stays so after any sequence of view reads. |
| ImageCache.Dimensions | core/image.py:17-19 | `dimensions` is the shape of `src`; `DimensionsOfNew` relates it to the constructing array. |
| ImageCache.Grayscale | core/image.py:21-25 | A read never changes `src` or the RGB slot. A successful read leaves the grayscale slot filled with the returned value; a conversion that raises leaves the slot empty and the image unchanged. A filled slot is returned without any change. When the slot agrees with `src`, the outcome is the grayscale conversion of `src`. |
| ImageCache.Rgb | core/image.py:27-31 | The same as `Grayscale`, for the RGB slot and conversion, including a raising conversion, leaving the grayscale slot alone. |
| ImageCache.MemoisationTransparent | core/image.py:21-31 | From consistent caches, any sequence of reads returns exactly what recomputing every view from `src` returns, errors included. `src` is kept and the caches stay consistent. |
| ImageCache.RereadIsCached | core/image.py:22-31 | Reading a view a second time returns the same value and leaves the image unchanged. |
| ImageCache.ViewsIndependent | core/image.py:21-31 | The two views' caches do not interact: reads of the two views commute, and neither read changes `dimensions`. |
| FeatureRecord.New | core/feature.py:7-16 | Stores the descriptor and the six keypoint fields; what this means for a rebuild is stated by `KeyPointRoundTrip`, `KeyPointAsWrittenShifts` and `FeatureRoundTrip`. |
| FeatureRecord.SizeNotStored | core/feature.py:9-16 | The record has no size field: keypoints that differ only in size give equal features. |
| FeatureRecord.KeyPointAsWritten | core/feature.py:18-25 | `key_point` as written, the positional call; its effect on an original keypoint is stated by `KeyPointAsWrittenShifts`. |
| FeatureRecord.KeyPointAsWrittenShifts | core/feature.py:9-25 | A keypoint flattened and rebuilt by the positional call comes back shifted. Its size is the original angle, its angle the original response, its response the original octave and its octave the original class id. Its class id is OpenCV's default of -1. Only the point survives. |
| FeatureRecord.AngleAsWritten | core/feature.py:27-29 | `angle` as written returns the stored response. |
| FeatureRecord.AngleAsWrittenRoundTrip | core/feature.py:27-29 | `angle` as written returns a keypoint's angle exactly when that angle equals its response. |
| FeatureRecord.AngleAsWrittenLosesAngle | core/feature.py:27-29 | A keypoint with angle 90 and response 0.5 comes back from `angle` with 0.5. |
| FeatureRecord.KeyPointOf | core/feature.py:18-25 | The corrected rebuild: flattening it gives back the feature it came from. |
| FeatureRecord.RecordRoundTrip | core/feature.py:18-25 | Flattening the corrected rebuilt keypoint gives back the same feature. |
| FeatureRecord.KeyPointRoundTrip | core/feature.py:9-25 | Flattening a keypoint and rebuilding it with the corrected rebuild `KeyPointOf` restores everything but its size. |
| FeatureRecord.Angle | core/feature.py:27-29 | The corrected `angle` is the stored angle. |
| FeatureRecord.Position | core/feature.py:31-33 | `position` is the stored (x, y). The positional call, as written, also rebuilds exactly that point. |
| FeatureRecord.FeatureRoundTrip | core/feature.py:6-33 | A feature's descriptor is the one it was built from, unchanged. Its position is the keypoint's (`pt[0]`, `pt[1]`), and its corrected angle is the keypoint's angle. |
| Matcher.RatioFilter | core/matcher.py:32-36 | The output is an order-preserving subsequence of the lists' nearest neighbours, no longer than the input. Every element is the nearest neighbour `m` of a list with exactly two neighbours that passes the test, and the `m` of every such list is in the output. |
| Matcher.RatioFilterCount | core/matcher.py:32-36 | The output holds one match per list that has exactly two neighbours and passes, duplicates included: its length is the number of such lists. |
| Matcher.RatioFilterAppend | core/matcher.py:32-36 | The filter treats each list on its own: filtering a concatenation concatenates the results. |
| Matcher.RatioFilterSingle | core/matcher.py:33-35 | A single list yields its nearest neighbour exactly when it has two neighbours and passes the test, and nothing otherwise. |
| Matcher.ShortListSkipped | core/matcher.py:33 | A list with fewer than two neighbours is skipped without error and without effect, wherever it stands. |
| Matcher.LoweAcceptance | core/matcher.py:34 | A pair is accepted exactly when 10·m < 7·n. Equality is rejected, and a zero second distance rejects every pair. |
| Matcher.PassesMonotone | core/matcher.py:34 | A pair accepted under a ratio is accepted under every larger ratio. |
| Matcher.RatioFilterMonotone | core/matcher.py:32-36 | Tightening the ratio never grows the result. The tighter result is an order-preserving subsequence of the looser one. |
| Matcher.Match | core/matcher.py:26-36 | The loop over the search result for (src, target) computes the ratio filter at 7/10, with one list inspected per iteration. |
| Matcher.ZipFeatures | core/matcher.py:22-24 | One feature per positional (keypoint, descriptor) pair, in detector order, cut to the shorter sequence as `zip` does. |
| Matcher.Features | core/matcher.py:19-24 | Pairing fails with a type error exactly when the detector returned no descriptor array. Otherwise it is the positional pairing. |
| EntryDatabase.NewEntry | core/database.py:10-15 | A new entry keeps its name, image, features and group, and starts with no augments. |
| EntryDatabase.DescriptorsOf | core/database.py:17-22 | `descriptors` has one element per feature: the i-th feature's descriptor. |
| EntryDatabase.KeyPointsOf | core/database.py:24-29 | `key_points` has one element per feature: the i-th feature's keypoint rebuilt by the positional call, as the code does. |
| EntryDatabase.CorrectedKeyPointsOf | core/database.py:24-29 | The same projection over the corrected rebuild `KeyPointOf`. |
| EntryDatabase.Descriptors | core/database.py:17-22 | `Entry.descriptors` has one element per feature; `DescriptorsOf` and `ProjectionsUndoPairing` give the elements. |
| EntryDatabase.KeyPoints | core/database.py:24-29 | `Entry.key_points` has one element per feature; `KeyPointsOf` and `ProjectionsUndoPairing` give the elements. |
| EntryDatabase.CorrectedKeyPoints | core/database.py:24-29 | `Entry.key_points` over the corrected rebuild, one element per feature. |
| EntryDatabase.ProjectionsUndoPairing | core/database.py:17-29 | For an entry built from paired detector output, `descriptors` gives back the detector's descriptors. `key_points`, as written, gives back each keypoint shifted one slot after its point, with class id -1. The corrected projection over `KeyPointOf` gives back each keypoint except for its size. |
| EntryDatabase.New | core/database.py:33-35 | A new database stores the filename, has no entries, and has written nothing yet. |
| EntryDatabase.Connect | core/database.py:37-39 | `connect` yields the stored snapshot; `LoadAfterAdd` states that it gives back what `add_entry` wrote. |
| EntryDatabase.Save | core/database.py:41-44 | `save` writes the whole state and changes nothing else; `LoadAfterAdd` states that a load observes it. |
| EntryDatabase.Entries | core/database.py:50-52 | `entries` lists one entry per stored name, in insertion order, each the entry stored under its own name. |
| EntryDatabase.ValuesInOrder | core/database.py:50-52 | The listed entries are, position by position, the entries stored under the names in insertion order. |
| EntryDatabase.Lookup | core/database.py:54-55 | `entry(name)` returns the entry stored under the name, and `None` exactly when no entry of that name was added. |
| EntryDatabase.AddEntry | core/database.py:46-48 | After `add_entry(e)`, looking up e's name gives `e` and every other name gives what it gave before. A new name is appended to the order and a known name keeps it. The saved snapshot is the whole new state. The store's invariants are kept. |
| EntryDatabase.EntriesAgreeWithLookup | core/database.py:50-55 | `entries` and `entry` agree. There are as many listed entries as names. Each listed entry is found under its own name, and every entry found by name is listed. |
| EntryDatabase.EntryCount | core/database.py:35-52 | A valid store holds exactly as many entries as names in its iteration order. |
| EntryDatabase.AddNewAppends | core/database.py:46-52 | Adding an entry under a new name appends it to the iteration. |
| EntryDatabase.ReAddKeepsPosition | core/database.py:46-52 | Re-adding a known name replaces the entry in place. The count does not grow, the replaced entry keeps its position, and every other position keeps its entry. |
| EntryDatabase.LoadAfterAdd | core/database.py:37-48 | `add_entry` saves the whole object. Loading the written file with `connect` gives back the whole state, including the new entry. |
| MainWindowScan.MatchCount | gui/main_window.py:73 | The match count of an entry is the number of its neighbour lists, with the entry on the query side, that hold two neighbours and pass at 7/10. |
| MainWindowScan.FirstRecognised | gui/main_window.py:71-86 | The selected position holds an entry with at least 10 matches, and every earlier entry has fewer. "No match" means no entry reaches 10. |
| MainWindowScan.OpenImage | gui/main_window.py:71-86 | The scan loop, over the entries in iteration order with the entry on the source side of `match`, returns the first entry with at least 10 matches, or nothing when none has. |
| MainWindowScan.FirstRecognisedAt | gui/main_window.py:71-82 | The selected position is the one that reaches the threshold after only entries that do not. |
| MainWindowScan.ThresholdBoundary | gui/main_window.py:75 | Exactly 10 matches select an entry; 9 do not. |
| MainWindowScan.FirstMatchWins | gui/main_window.py:71-82 | An entry reaching the threshold after entries that do not is selected, whatever follows it. |
| MainWindowScan.LaterEntriesIrrelevant | gui/main_window.py:82 | Once an entry is selected, entries after it cannot change the outcome. |
| MainWindowScan.NoMatchIff | gui/main_window.py:83-86 | "No match" is reported exactly when no entry reaches 10 matches. An empty database never matches. |
| MainWindowScan.EntrySideBoundsCount | gui/main_window.py:73 | Given a search that returns at most one list per source-side descriptor, with the entry on the source side, an entry gets at most one match per feature, and an entry with fewer than 10 features is never selected. |

## Findings

| source | as written | input that shows it | evidently intended | confidence | as-written member | corrected member |
|---|---|---|---|---|---|---|
| core/feature.py:20-29 | `key_point` passes the six stored fields positionally to `KeyPoint(x, y, size, angle, response, octave, class_id)`. Each field after y lands one slot early, so `angle` returns the stored response. | a keypoint with angle 90 and response 0.5: `angle` returns 0.5 | every stored field goes to its own slot, and `angle` returns the stored angle | high (OpenCV's constructor signature); not executed | FeatureRecord.AngleAsWrittenRoundTrip | FeatureRecord.FeatureRoundTrip |

The corrected rebuild, `FeatureRecord.KeyPointOf`, fills the size slot with
0, because the record never stored a size. `FeatureRecord.Angle` and
`EntryDatabase.CorrectedKeyPoints` use it. `EntryDatabase.KeyPoints` keeps
the rebuild as written, which is what `Entry.key_points` returns.

## Left out

- Pickle persistence, file I/O and I/O errors from `save` are not modelled. Storage is the last snapshot written.
- ImageCache.Grayscale: which arrays make `cv2.cvtColor` raise is not modelled; the conversion's outcome is a parameter.
- ORB detection, the `nfeatures=1000` cap, the FLANN/LSH search, CLAHE histogram equalisation, `cv2.imread` and `cv2.cvtColor` are foreign calls. Their outputs are inputs to the model.
- `features_raw`, which `open_image` calls at gui/main_window.py:70, is not defined on `Matcher` in core/matcher.py. As written that call raises `AttributeError`, so the scan at lines 71-86 is never reached. The query descriptors are therefore an input of `MainWindowScan.OpenImage`.
- `src` is a public attribute that shares the caller's numpy array. Mutating that array in place through another reference, which would leave a stale cache, is not modelled.
- MainWindowScan.OpenImage: every `Matcher.match` call builds a new FLANN matcher whose LSH index draws its hash bits at random, so the program can give two entries with equal descriptors different match counts in one scan. The model's search is one fixed function of its arguments, so it cannot; the properties proved hold for each fixed search.
- Matcher.LoweAcceptance: models `m.distance < 0.7 * n.distance` as the exact rational test `10 * m < 7 * n`. Double-precision rounding of `0.7 * n` is not modelled.
- OpenCV's float fields (positions, angle, response) are reals. They are only copied, never computed with.
- The Qt windows, dialogs, menus, scene drawing and display of the recognised image (gui/main_window.py outside lines 71-86, and every other gui/ file) are UI.
- `main.py` is a plotting demo and is UI.
- core/augments.py has no behaviour. Augments appear only as an opaque kind inside an entry.
- Python's `dict` deletion and any other mutation besides `add_entry` are absent, because the source does not use them.
