/** The chord detector of spec.py: every time slice of a chromagram, given as
    twelve intensities already scaled to whole percentages, becomes the chord of
    the pitch classes whose intensity is above a fixed threshold. */
module ChordDetector {

  /** An intensity must be strictly above this percentage for its pitch class
      to count as present. */
  const PresenceThreshold := 30

  /** The pitch classes (indices into the slice) present in one chroma vector,
      in ascending order: every index whose intensity exceeds the threshold. */
  function Detected(chromaVector: seq<int>): (pitches: seq<nat>)
    ensures |pitches| <= |chromaVector|
    ensures forall k | 0 <= k < |pitches| :: pitches[k] < |chromaVector|
    ensures forall i, j | 0 <= i < j < |pitches| :: pitches[i] < pitches[j]
  {
    if chromaVector == [] then []
    else
      var last := |chromaVector| - 1;
      Detected(chromaVector[..last]) + if chromaVector[last] > PresenceThreshold then [last] else []
  }

  /** The loop over the time slices: one chord per slice, in slice order, each
      built by the inner loop over the slice's pitch classes. */
  method DetectChords(chromagram: seq<seq<int>>) returns (chordSequence: seq<seq<nat>>)
    ensures |chordSequence| == |chromagram|
    ensures forall t | 0 <= t < |chromagram| :: chordSequence[t] == Detected(chromagram[t])
  {
    chordSequence := [];
    for t := 0 to |chromagram|
      invariant |chordSequence| == t
      invariant forall u | 0 <= u < t :: chordSequence[u] == Detected(chromagram[u])
    {
      var chromaVector := chromagram[t];
      var pitches := [];
      for pitchClass := 0 to |chromaVector|
        invariant pitches == Detected(chromaVector[..pitchClass])
      {
        assert chromaVector[..pitchClass + 1][..pitchClass] == chromaVector[..pitchClass];
        if chromaVector[pitchClass] > PresenceThreshold {
          pitches := pitches + [pitchClass];
        }
      }
      assert chromaVector[..|chromaVector|] == chromaVector;
      chordSequence := chordSequence + [pitches];
    }
  }

  /** A pitch class is in the chord exactly when it indexes the slice and its
      intensity is strictly above the threshold. */
  lemma {:induction false} DetectedMembers(chromaVector: seq<int>, k: int)
    ensures k in Detected(chromaVector) <==> 0 <= k < |chromaVector| && chromaVector[k] > PresenceThreshold
  {
    if chromaVector != [] {
      var init := chromaVector[..|chromaVector| - 1];
      DetectedMembers(init, k);
      if 0 <= k < |init| {
        assert init[k] == chromaVector[k];
      }
    }
  }

  /** A slice whose intensities are all at most the threshold gives an empty
      chord, and only such a slice does. */
  lemma QuietSliceEmpty(chromaVector: seq<int>)
    ensures Detected(chromaVector) == [] <==>
      forall k | 0 <= k < |chromaVector| :: chromaVector[k] <= PresenceThreshold
  {
    var pitches := Detected(chromaVector);
    if pitches != [] {
      DetectedMembers(chromaVector, pitches[0]);
    }
    forall k | 0 <= k < |chromaVector| && chromaVector[k] > PresenceThreshold
      ensures pitches != []
    {
      DetectedMembers(chromaVector, k);
    }
  }

  /** The threshold itself is excluded and one above it is included. */
  lemma ThresholdBoundary()
    ensures Detected([30]) == []
    ensures Detected([31]) == [0]
    ensures Detected([0, 31, 30, 100]) == [1, 3]
  {
    assert [0, 31, 30, 100][..3] == [0, 31, 30];
    assert [0, 31, 30][..2] == [0, 31];
    assert [0, 31][..1] == [0];
  }
}
