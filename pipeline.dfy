/** The receive path of test_descramble_detect2.py: the ordered-set
    detector feeds the two-byte descrambler directly, data, K flags, masks
    and type, and both step every cycle. */
module Pipeline {
  import opened Codes
  import OrderedSets
  import TwoByteDescrambler

  /** The detector and the descrambler wired in series. */
  class DetectDescramble {
    const detector: OrderedSets.Detector
    const descrambler: TwoByteDescrambler.Descrambler

    predicate Valid()
      reads this, detector
    {
      detector.Valid()
    }

    constructor()
      ensures Valid() && fresh(detector) && fresh(descrambler)
      ensures detector.State() == OrderedSets.Tags(0, Data, 0)
      ensures detector.words == seq(OrderedSets.DEPTH, _ => Word(0, 0))
      ensures descrambler.value == TwoByteDescrambler.LFSR_VALUE_RESET
      ensures descrambler.source == Tagged(0, 0, 0, Data)
    {
      detector := new OrderedSets.Detector();
      descrambler := new TwoByteDescrambler.Descrambler();
    }

    /** One clock edge: the descrambler registers what the detector
        presents before the edge, and the detector takes in `sink`. */
    method Step(sink: Word)
      requires Valid()
      modifies detector, descrambler
      ensures Valid()
      ensures detector.words == OrderedSets.Shift(old(detector.words), sink)
      ensures detector.State() == OrderedSets.NextTags(old(detector.State()), old(detector.words))
      ensures descrambler.value == TwoByteDescrambler.NextValue(old(descrambler.value), old(detector.Output()).data, old(detector.Output()).ctrl)
      ensures descrambler.source == TwoByteDescrambler.Output(old(descrambler.value), old(detector.Output()))
    {
      descrambler.Step(detector.Output());
      detector.Step(sink);
    }
  }

  /** The first word the detector tags after detecting `r`: word8 of the
      window moves to word9 and takes the rule's mask and type. */
  function FirstTagged(w: seq<Word>, r: OrderedSets.Rule): Tagged
    requires |w| == OrderedSets.DEPTH
  {
    Tagged(w[8].data, w[8].ctrl, OrderedSets.Effect(r).osets, r.kind)
  }

  /** The COM of every detected ordered set leaves the descrambler as COM,
      whatever the scrambler state. */
  lemma ComLeavesUnscrambled(w: seq<Word>, r: OrderedSets.Rule, value: bv16)
    requires |w| == OrderedSets.DEPTH && OrderedSets.Detect(w) == OrderedSets.Some(r)
    ensures r.lane == OrderedSets.UpperLane ==> Upper(TwoByteDescrambler.Output(value, FirstTagged(w, r)).data) == COM
    ensures r.lane == OrderedSets.LowerLane ==> Lower(TwoByteDescrambler.Output(value, FirstTagged(w, r)).data) == COM
  {
    OrderedSets.DetectIsLastFiringRule(w);
    TwoByteDescrambler.TaggedLanesPassThrough(value, w[8].data, w[8].ctrl, OrderedSets.Effect(r).osets);
  }

  /** Every symbol of a detected ordered set, in the word `j` positions
      after the one holding its COM, leaves the descrambler as it was
      received (lower-lane training sets excepted). */
  lemma OrderedSetLeavesUnscrambled(r: OrderedSets.Rule, j: nat, value: bv16, data: bv16, ctrl: bv2)
    requires OrderedSets.IsRule(r) && !OrderedSets.LowerTrainingRule(r) && j < 9
    ensures var m := OrderedSets.Masks(OrderedSets.Effect(r))[j];
            var first := OrderedSets.Lead(r.lane);
            var last := first + OrderedSets.SetLength(r.kind) - 1;
            (first <= 2 * j <= last ==> TwoByteDescrambler.UpperOut(value, data, ctrl, m) == Upper(data))
            && (first <= 2 * j + 1 <= last ==> TwoByteDescrambler.LowerOut(value, data, ctrl, m) == Lower(data))
  {
    OrderedSets.TagsCoverOrderedSet(r);
    TwoByteDescrambler.TaggedLanesPassThrough(value, data, ctrl, OrderedSets.Masks(OrderedSets.Effect(r))[j]);
  }

  /** With the corrected loads the same holds for every rule. */
  lemma CorrectedOrderedSetLeavesUnscrambled(r: OrderedSets.Rule, j: nat, value: bv16, data: bv16, ctrl: bv2)
    requires OrderedSets.IsRule(r) && j < 9
    ensures var m := OrderedSets.Masks(OrderedSets.CorrectedEffect(r))[j];
            var first := OrderedSets.Lead(r.lane);
            var last := first + OrderedSets.SetLength(r.kind) - 1;
            (first <= 2 * j <= last ==> TwoByteDescrambler.UpperOut(value, data, ctrl, m) == Upper(data))
            && (first <= 2 * j + 1 <= last ==> TwoByteDescrambler.LowerOut(value, data, ctrl, m) == Lower(data))
  {
    OrderedSets.CorrectedTagsCoverOrderedSet(r);
    TwoByteDescrambler.TaggedLanesPassThrough(value, data, ctrl, OrderedSets.Masks(OrderedSets.CorrectedEffect(r))[j]);
  }

  /** As written, the last identifier of a lower-lane training set (the
      upper symbol of the ninth word) is untagged, so the descrambler XORs
      it with the keystream: from the reset state it comes out inverted. */
  lemma LastTrainingIdDescrambled(r: OrderedSets.Rule, data: bv16)
    requires OrderedSets.LowerTrainingRule(r)
    ensures OrderedSets.Masks(OrderedSets.Effect(r))[8] == 0
    ensures TwoByteDescrambler.UpperOut(TwoByteDescrambler.LFSR_VALUE_RESET, data, 0, OrderedSets.Masks(OrderedSets.Effect(r))[8])
            == Upper(data) ^ 0xFF
  {
    OrderedSets.LowerTrainingTagsAsWritten(r);
    TwoByteDescrambler.KeyByteOfReset();
  }
}
