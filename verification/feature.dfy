/**
 * The feature record of core/feature.py: a keypoint flattened into six
 * stored fields plus its descriptor, and the keypoint rebuilt from them.
 *
 * OpenCV's floats are modelled as `real`; nothing here does arithmetic on
 * them, the fields are only copied.
 */
module FeatureRecord {

  /** An ORB descriptor: a row of bytes. */
  type Descriptor = seq<bv8>

  /** `cv2.KeyPoint`. */
  datatype KeyPoint = KeyPoint(pt: (real, real), size: real, angle: real, response: real, octave: int, classId: int)

  /**
   * The constructor `cv2.KeyPoint(x, y, size, angle=-1, response=0, octave=0, class_id=-1)`:
   * the parameters and defaults in OpenCV's order, so that a positional call
   * lands each argument where OpenCV puts it.
   */
  function MakeKeyPoint(x: real, y: real, size: real, angle: real := -1.0, response: real := 0.0,
                        octave: int := 0, classId: int := -1): KeyPoint
  {
    KeyPoint((x, y), size, angle, response, octave, classId)
  }

  /** The six stored keypoint fields; the keypoint's size is not among them. */
  datatype Record = Record(x: real, y: real, angle: real, response: real, octave: int, classId: int)

  datatype Feature = Feature(descriptor: Descriptor, record: Record)

  /** `Feature(key_point, descriptor)`: keeps the descriptor and flattens the keypoint. */
  function New(kp: KeyPoint, des: Descriptor): (f: Feature)
    ensures f.descriptor == des
    ensures (f.record.x, f.record.y) == kp.pt
    ensures f.record.angle == kp.angle && f.record.response == kp.response
    ensures f.record.octave == kp.octave && f.record.classId == kp.classId
  {
    Feature(des, Record(kp.pt.0, kp.pt.1, kp.angle, kp.response, kp.octave, kp.classId))
  }

  /** Two keypoints that differ only in size give the same feature: size is dropped. */
  lemma SizeNotStored(kp: KeyPoint, size: real, des: Descriptor)
    ensures New(kp.(size := size), des) == New(kp, des)
  {
  }

  /**
   * `key_point` as written: the six stored fields are passed positionally, so
   * after x and y every field lands one slot early — the stored angle becomes
   * the size, the stored response the angle, the octave the response, the
   * class id the octave — and the class id takes its default.
   */
  function KeyPointAsWritten(f: Feature): (kp: KeyPoint)
    ensures kp.pt == (f.record.x, f.record.y)
    ensures kp.size == f.record.angle && kp.angle == f.record.response
    ensures kp.response == f.record.octave as real && kp.octave == f.record.classId
    ensures kp.classId == -1
  {
    var r := f.record;
    MakeKeyPoint(r.x, r.y, r.angle, r.response, r.octave as real, r.classId)
  }

  /**
   * A keypoint flattened and rebuilt as written comes back shifted: its
   * angle is the original response, its size the original angle, its
   * response the original octave, its octave the original class id, and its
   * class id is -1. Only the point survives.
   */
  lemma KeyPointAsWrittenShifts(kp: KeyPoint, des: Descriptor)
    ensures var back := KeyPointAsWritten(New(kp, des));
            && back.pt == kp.pt
            && back.size == kp.angle && back.angle == kp.response
            && back.response == kp.octave as real && back.octave == kp.classId
            && back.classId == -1
  {
  }

  /** `angle` as written: the angle slot of the rebuilt keypoint, i.e. the stored response. */
  function AngleAsWritten(f: Feature): (a: real)
    ensures a == f.record.response
  {
    KeyPointAsWritten(f).angle
  }

  /** A keypoint whose angle and response differ comes back with the wrong angle. */
  lemma AngleAsWrittenLosesAngle()
    ensures var kp := MakeKeyPoint(1.0, 2.0, 3.0, 90.0, 0.5, 0, 7);
            AngleAsWritten(New(kp, [])) == 0.5 != kp.angle
  {
  }

  /** `angle` as written returns the stored angle exactly when it equals the stored response. */
  lemma AngleAsWrittenRoundTrip(kp: KeyPoint, des: Descriptor)
    ensures AngleAsWritten(New(kp, des)) == kp.angle <==> kp.angle == kp.response
  {
  }

  /**
   * The size the corrected rebuild passes: the record never stored one, so
   * there is nothing to restore.
   */
  const UnstoredSize: real := 0.0

  /**
   * `key_point`, corrected: every stored field goes to its own slot of the
   * OpenCV constructor.
   */
  function KeyPointOf(f: Feature): (kp: KeyPoint)
    ensures New(kp, f.descriptor) == f
  {
    var r := f.record;
    MakeKeyPoint(r.x, r.y, UnstoredSize, angle := r.angle, response := r.response,
                 octave := r.octave, classId := r.classId)
  }

  /** Flattening the rebuilt keypoint gives back the same feature. */
  lemma RecordRoundTrip(f: Feature)
    ensures New(KeyPointOf(f), f.descriptor) == f
  {
  }

  /** A keypoint survives flattening and rebuilding in everything but its size. */
  lemma KeyPointRoundTrip(kp: KeyPoint, des: Descriptor)
    ensures KeyPointOf(New(kp, des)) == kp.(size := UnstoredSize)
  {
  }

  /** `angle`, corrected: the stored angle. */
  function Angle(f: Feature): (a: real)
    ensures a == f.record.angle
  {
    KeyPointOf(f).angle
  }

  /** `position`: the stored (x, y), which the positional call does pass correctly. */
  function Position(f: Feature): (p: (real, real))
    ensures p == (f.record.x, f.record.y)
    ensures p == KeyPointAsWritten(f).pt
  {
    KeyPointOf(f).pt
  }

  /** The position and the angle of a feature are those of the keypoint it was built from. */
  lemma FeatureRoundTrip(kp: KeyPoint, des: Descriptor)
    ensures Position(New(kp, des)) == kp.pt
    ensures Angle(New(kp, des)) == kp.angle
    ensures New(kp, des).descriptor == des
  {
  }
}
