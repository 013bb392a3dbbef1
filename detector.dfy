/** The ordered-set detector of detect_ordered_sets.py. Every cycle one
    two-symbol word enters a ten-stage register chain (word0 .. word9) with
    its bytes and K flags swapped; fixed symbol patterns at fixed stages
    recognise the ordered sets of section 4.2.4 of the PCI Express Base
    Specification 1.1 when their COM reaches word8, and a 16-bit drain
    register then tags the symbols of the ordered set, two bits per word,
    as they leave word9. Within a word the upper byte is the earlier
    symbol. */
module OrderedSets {
  import opened Codes

  /** Number of stages in the register chain. */
  const DEPTH: nat := 10

  /** The word the first stage registers: the two bytes change places and
      each K flag moves with its byte. */
  function Swap(w: Word): Word
  {
    Word(Join(Lower(w.data), Upper(w.data)), ((w.ctrl & 1) << 1) | (w.ctrl >> 1))
  }

  /** Swapping moves each byte with its flag and alters no byte. */
  lemma SwapKeepsSymbols(w: Word)
    ensures Upper(Swap(w).data) == Lower(w.data) && Lower(Swap(w).data) == Upper(w.data)
    ensures UpperK(Swap(w)) == LowerK(w) && LowerK(Swap(w)) == UpperK(w)
  {
  }

  datatype Option<T> = None | Some(value: T)

  // The lane of word8 that holds the COM, and the patterns matched behind it.

  datatype Lane = UpperLane | LowerLane

  /** A detection rule: the lane of the COM and the ordered set it reports
      (never `Data`). */
  datatype Rule = Rule(lane: Lane, kind: OsetsType)

  predicate IsRule(r: Rule)
  {
    r.kind != Data
  }

  predicate UpperComma(w: seq<Word>)
    requires |w| == DEPTH
  {
    Upper(w[8].data) == COM && UpperK(w[8])
  }

  predicate LowerComma(w: seq<Word>)
    requires |w| == DEPTH
  {
    Lower(w[8].data) == COM && LowerK(w[8])
  }

  /** COM in the upper lane followed by three copies of the K symbol `s`
      (SKP, IDL or FTS). */
  predicate UpperTriple(w: seq<Word>, s: bv8)
    requires |w| == DEPTH
  {
    Lower(w[8].data) == s && w[7].data == Two(s)
  }

  /** Ten training-set identifiers in words 5 .. 1, COM in the upper lane. */
  predicate UpperTraining(w: seq<Word>, id: bv8)
    requires |w| == DEPTH
  {
    w[5].data == Two(id) && w[4].data == Two(id) && w[3].data == Two(id)
    && w[2].data == Two(id) && w[1].data == Two(id)
  }

  /** COM, D21.5, COM, D10.2 with the first COM in the upper lane. */
  predicate UpperCompliance(w: seq<Word>)
    requires |w| == DEPTH
  {
    Lower(w[8].data) == COMPLIANCE_ID && Upper(w[7].data) == COM && Lower(w[7].data) == TS1_ID
  }

  /** The same followed two symbols later by COM, COM. */
  predicate UpperModifiedCompliance(w: seq<Word>)
    requires |w| == DEPTH
  {
    UpperCompliance(w) && Upper(w[5].data) == COM && Lower(w[5].data) == COM
  }

  predicate LowerTriple(w: seq<Word>, s: bv8)
    requires |w| == DEPTH
  {
    w[7].data == Two(s) && Upper(w[6].data) == s
  }

  predicate LowerTraining(w: seq<Word>, id: bv8)
    requires |w| == DEPTH
  {
    Lower(w[5].data) == id && w[4].data == Two(id) && w[3].data == Two(id)
    && w[2].data == Two(id) && w[1].data == Two(id) && Upper(w[0].data) == id
  }

  predicate LowerCompliance(w: seq<Word>)
    requires |w| == DEPTH
  {
    Upper(w[7].data) == COMPLIANCE_ID && Lower(w[7].data) == COM && Upper(w[6].data) == TS1_ID
  }

  predicate LowerModifiedCompliance(w: seq<Word>)
    requires |w| == DEPTH
  {
    LowerCompliance(w) && Lower(w[5].data) == COM && Upper(w[4].data) == COM
  }

  /** Whether rule `r` fires on the window `w` (w[i] is word i). */
  predicate Matches(r: Rule, w: seq<Word>)
    requires |w| == DEPTH
  {
    match r.lane
    case UpperLane =>
      UpperComma(w) &&
      (match r.kind
      case Data => false
      case Skip => UpperTriple(w, SKP)
      case Idle => UpperTriple(w, IDL)
      case Fts => UpperTriple(w, FTS)
      case Ts1 => UpperTraining(w, TS1_ID)
      case Ts2 => UpperTraining(w, TS2_ID)
      case Compliance => UpperCompliance(w)
      case ModifiedCompliance => UpperModifiedCompliance(w))
    case LowerLane =>
      LowerComma(w) &&
      (match r.kind
      case Data => false
      case Skip => LowerTriple(w, SKP)
      case Idle => LowerTriple(w, IDL)
      case Fts => LowerTriple(w, FTS)
      case Ts1 => LowerTraining(w, TS1_ID)
      case Ts2 => LowerTraining(w, TS2_ID)
      case Compliance => LowerCompliance(w)
      case ModifiedCompliance => LowerModifiedCompliance(w))
  }

  /** The position of a rule's assignments within its lane's block: SKP,
      IDL, FTS, TS1, TS2 and then the modified compliance rule, whose
      `Else` holds the compliance rule, so compliance fires only when
      modified compliance does not. */
  function KindRank(kind: OsetsType): nat
  {
    match kind
    case Data => 0
    case Skip => 0
    case Idle => 1
    case Fts => 2
    case Ts1 => 3
    case Ts2 => 4
    case Compliance => 5
    case ModifiedCompliance => 6
  }

  /** The position of a rule's assignments in the cycle: the lower-lane
      block comes after the upper-lane block. */
  function Rank(r: Rule): nat
  {
    (if r.lane == LowerLane then 7 else 0) + KindRank(r.kind)
  }

  /** The rule of one lane whose assignments execute last, if any fires. */
  function LaneDetect(lane: Lane, w: seq<Word>): (r: Option<Rule>)
    requires |w| == DEPTH
    ensures r.Some? ==> r.value.lane == lane
  {
    if Matches(Rule(lane, ModifiedCompliance), w) then Some(Rule(lane, ModifiedCompliance))
    else if Matches(Rule(lane, Compliance), w) then Some(Rule(lane, Compliance))
    else if Matches(Rule(lane, Ts2), w) then Some(Rule(lane, Ts2))
    else if Matches(Rule(lane, Ts1), w) then Some(Rule(lane, Ts1))
    else if Matches(Rule(lane, Fts), w) then Some(Rule(lane, Fts))
    else if Matches(Rule(lane, Idle), w) then Some(Rule(lane, Idle))
    else if Matches(Rule(lane, Skip), w) then Some(Rule(lane, Skip))
    else None
  }

  /** The rule whose assignments are the last to execute in a cycle, if
      any rule fires: the lower-lane block overrides the upper-lane one. */
  function Detect(w: seq<Word>): Option<Rule>
    requires |w| == DEPTH
  {
    if LaneDetect(LowerLane, w).Some? then LaneDetect(LowerLane, w) else LaneDetect(UpperLane, w)
  }

  /** The rule a lane detects fires. */
  lemma LaneDetectFires(lane: Lane, w: seq<Word>)
    requires |w| == DEPTH
    ensures LaneDetect(lane, w).Some? ==> IsRule(LaneDetect(lane, w).value) && Matches(LaneDetect(lane, w).value, w)
  {
  }

  /** No rule of the lane that fires outranks the one the lane detects. */
  lemma LaneDetectOutranks(w: seq<Word>, r: Rule)
    requires |w| == DEPTH && Matches(r, w)
    ensures LaneDetect(r.lane, w).Some? && KindRank(r.kind) <= KindRank(LaneDetect(r.lane, w).value.kind)
  {
  }

  /** The detected rule is the highest-ranked rule that fires, and no rule
      fires when none is detected. */
  lemma DetectIsLastFiringRule(w: seq<Word>)
    requires |w| == DEPTH
    ensures Detect(w).Some? ==> IsRule(Detect(w).value) && Matches(Detect(w).value, w)
    ensures Detect(w).Some? ==> forall r :: Matches(r, w) ==> Rank(r) <= Rank(Detect(w).value)
    ensures Detect(w).None? ==> forall r :: !Matches(r, w)
  {
    LaneDetectFires(LowerLane, w);
    LaneDetectFires(UpperLane, w);
    forall r | Matches(r, w)
      ensures Detect(w).Some? && Rank(r) <= Rank(Detect(w).value)
    {
      LaneDetectOutranks(w, r);
    }
  }

  /** A COM in the lower lane of word8 with a pattern behind it overrides
      any match in the upper lane. */
  lemma LowerLaneWins(w: seq<Word>, r: Rule)
    requires |w| == DEPTH && r.lane == LowerLane && Matches(r, w)
    ensures Detect(w).Some? && Detect(w).value.lane == LowerLane
  {
    DetectIsLastFiringRule(w);
  }

  /** Modified compliance excludes compliance in the same lane. */
  lemma ModifiedComplianceExcludesCompliance(w: seq<Word>, lane: Lane)
    requires |w| == DEPTH && Matches(Rule(lane, ModifiedCompliance), w)
    ensures Detect(w) != Some(Rule(lane, Compliance))
  {
    DetectIsLastFiringRule(w);
  }

  // What a rule loads ------------------------------------------------------

  /** The three registers the detector updates besides the chain: the osets
      mask and ordered-set type of the outgoing word, and the drain
      pattern. */
  datatype Tags = Tags(osets: bv2, kind: OsetsType, pattern: bv16)

  /** What each rule assigns: its mask, its type and the drain pattern. */
  function Effect(r: Rule): (t: Tags)
    ensures t.kind == r.kind
  {
    match r.lane
    case UpperLane =>
      (match r.kind
       case Ts1 => Tags(0x3, r.kind, 0xFFFC)
       case Ts2 => Tags(0x3, r.kind, 0xFFFC)
       case ModifiedCompliance => Tags(0x3, r.kind, 0xFC00)
       case _ => Tags(0x3, r.kind, 0xC000))
    case LowerLane =>
      (match r.kind
       case Ts1 => Tags(0x3, r.kind, 0xFFFC)
       case Ts2 => Tags(0x3, r.kind, 0xFFFC)
       case ModifiedCompliance => Tags(0x1, r.kind, 0xFE00)
       case _ => Tags(0x1, r.kind, 0xE000))
  }

  /** The two bits the drain register emits: its top two bits. */
  function Top(p: bv16): bv2
  {
    (p >> 14) as bv2
  }

  /** A cycle in which no rule fires: while the top two bits of the pattern
      are not both zero they become the mask and the pattern moves up two
      bits; otherwise the mask clears and the type returns to `Data`. The
      type is not written in the first case and keeps its value. */
  function Drain(t: Tags): (r: Tags)
    ensures r.osets == Top(t.pattern)
    ensures r.pattern == Shifted(t.pattern)
  {
    if Top(t.pattern) != 0 then Tags(Top(t.pattern), t.kind, t.pattern << 2)
    else Tags(0, Data, t.pattern)
  }

  /** The pattern after a drain cycle. */
  function Shifted(p: bv16): bv16
  {
    if Top(p) != 0 then p << 2 else p
  }

  /** The registers after one cycle with the window `w` before the edge. */
  function NextTags(t: Tags, w: seq<Word>): Tags
    requires |w| == DEPTH
  {
    match Detect(w)
    case Some(r) => Effect(r)
    case None => Drain(t)
  }

  // The drain register ------------------------------------------------------

  /** A pattern made of ones from the top bit down and zeros below. */
  predicate TopOnes(p: bv16)
  {
    var q := !p;
    q & (q + 1) == 0
  }

  /** Every rule loads a pattern of that shape. */
  lemma EffectLoadsTopOnes(r: Rule)
    ensures TopOnes(Effect(r).pattern)
  {
  }

  /** The lowest `2 * k` bits. */
  function LowBits(k: nat): bv16
    requires k <= 8
  {
    match k
    case 0 => 0x0000
    case 1 => 0x0003
    case 2 => 0x000F
    case 3 => 0x003F
    case 4 => 0x00FF
    case 5 => 0x03FF
    case 6 => 0x0FFF
    case 7 => 0x3FFF
    case _ => 0xFFFF
  }

  /** One drain cycle keeps the shape, clears two more low bits, and on an
      empty pattern clears the mask and the type. */
  lemma DrainStep(t: Tags, k: nat)
    requires TopOnes(t.pattern) && k < 8 && t.pattern & LowBits(k) == 0
    ensures TopOnes(Drain(t).pattern)
    ensures Drain(t).pattern & LowBits(k + 1) == 0
  {
    match k
    case 0 =>
    case 1 =>
    case 2 =>
    case 3 =>
    case 4 =>
    case 5 =>
    case 6 =>
    case 7 =>
  }

  /** `n` drain cycles. */
  function DrainN(t: Tags, n: nat): Tags
    decreases n
  {
    if n == 0 then t else DrainN(Drain(t), n - 1)
  }

  /** With no new detection a pattern whose lowest `2 * k` bits are clear is
      empty after `8 - k` cycles, and one cycle later the mask is clear and
      the type is back to `Data`. */
  lemma {:induction false} DrainEmptiesFrom(t: Tags, n: nat, k: nat)
    requires TopOnes(t.pattern) && k <= 8 && t.pattern & LowBits(k) == 0
    ensures n + k >= 8 ==> DrainN(t, n).pattern == 0
    ensures n + k >= 9 && n >= 1 ==> DrainN(t, n) == Tags(0, Data, 0)
    decreases n
  {
    if n > 0 {
      if k < 8 {
        DrainStep(t, k);
        DrainEmptiesFrom(Drain(t), n - 1, k + 1);
      } else {
        assert t.pattern == 0;
        DrainEmptiesFrom(Drain(t), n - 1, 8);
      }
    }
  }

  /** Whatever a rule loads, eight cycles without a new detection empty the
      drain register and the ninth returns the outgoing tags to plain data. */
  lemma DrainEmpties(r: Rule, n: nat)
    requires n >= 9
    ensures DrainN(Effect(r), 8).pattern == 0
    ensures DrainN(Effect(r), n) == Tags(0, Data, 0)
  {
    EffectLoadsTopOnes(r);
    DrainEmptiesFrom(Effect(r), 8, 0);
    DrainEmptiesFrom(Effect(r), n, 0);
  }

  /** Once the top two bits are clear the register is stuck: every later
      cycle emits a clear mask and the `Data` type. */
  lemma {:induction false} DrainStalls(t: Tags, n: nat)
    requires Top(t.pattern) == 0 && n >= 1
    ensures DrainN(t, n) == Tags(0, Data, t.pattern)
    decreases n
  {
    if n > 1 {
      DrainStalls(Drain(t), n - 1);
    }
  }

  /** The type is never written while the register drains: every drain
      cycle that still emits a mask emits the type that was loaded. */
  lemma {:induction false} DrainHoldsKind(t: Tags, n: nat)
    ensures DrainN(t, n).osets != 0 ==> DrainN(t, n).kind == t.kind
    decreases n
  {
    if n > 0 {
      if Top(t.pattern) == 0 {
        DrainStalls(t, n);
      } else {
        DrainHoldsKind(Drain(t), n - 1);
      }
    }
  }

  // The tags the ordered set carries out --------------------------------------

  /** The masks of the `n` words that leave word9 after the one carrying
      the load of pattern `p`, while no rule fires. */
  function DrainMasks(p: bv16, n: nat): (r: seq<bv2>)
    ensures |r| == n
    decreases n
  {
    if n == 0 then [] else [Top(p)] + DrainMasks(Shifted(p), n - 1)
  }

  /** These are the masks the drain cycles produce. */
  lemma {:induction false} DrainMasksAreDrained(t: Tags, n: nat, i: nat)
    requires i < n
    ensures DrainMasks(t.pattern, n)[i] == DrainN(t, i + 1).osets
    decreases i
  {
    if i > 0 {
      DrainMasksAreDrained(Drain(t), n - 1, i - 1);
    }
  }

  /** The masks of the word holding the COM and of the eight words behind
      it, when nothing else is detected meanwhile. */
  function Masks(t: Tags): (r: seq<bv2>)
    ensures |r| == 9
  {
    [t.osets] + DrainMasks(t.pattern, 8)
  }

  /** The `i`-th word behind the one that took the load `t` leaves with
      mask `Masks(t)[i]` and, while that mask is not clear, with the loaded
      type (`Effect(r).kind` is the detected `r.kind`). */
  lemma TaggedWordsCarryKind(t: Tags, i: nat)
    requires 1 <= i < 9
    ensures DrainN(t, i).osets == Masks(t)[i]
    ensures Masks(t)[i] != 0 ==> DrainN(t, i).kind == t.kind
  {
    DrainMasksAreDrained(t, 8, i - 1);
    DrainHoldsKind(t, i);
  }

  /** The mask of a word whose upper symbol is tagged when `upper` holds
      and whose lower symbol is tagged when `lower` holds. */
  function Pair(upper: bool, lower: bool): (m: bv2)
    ensures (m & 2 != 0) == upper && (m & 1 != 0) == lower
  {
    (if upper then 2 else 0) | (if lower then 1 else 0)
  }

  /** The masks of `n` consecutive words that tag exactly the symbols
      `first` .. `last`, counting the symbols in the order they were
      received from 0 at the upper byte of the first word. */
  function SpanMasks(first: int, last: int, n: nat): (r: seq<bv2>)
    ensures |r| == n
    ensures forall j :: 0 <= j < n ==> (r[j] & 2 != 0 <==> first <= 2 * j <= last)
    ensures forall j :: 0 <= j < n ==> (r[j] & 1 != 0 <==> first <= 2 * j + 1 <= last)
    decreases n
  {
    if n == 0 then []
    else [Pair(first <= 0 <= last, first <= 1 <= last)] + SpanMasks(first - 2, last - 2, n - 1)
  }

  /** Where the COM sits in the first tagged word. */
  function Lead(lane: Lane): nat
  {
    if lane == UpperLane then 0 else 1
  }

  /** The number of symbols in each ordered set (COM included). */
  function SetLength(kind: OsetsType): nat
  {
    match kind
    case Data => 0
    case Ts1 => 16
    case Ts2 => 16
    case ModifiedCompliance => 8
    case _ => 4
  }

  /** The training sets whose COM sits in the lower lane. */
  predicate LowerTrainingRule(r: Rule)
  {
    r.lane == LowerLane && (r.kind == Ts1 || r.kind == Ts2)
  }

  // The loads, one lemma per shape.

  lemma UpperShortTags(t: Tags)
    requires t.osets == 3 && t.pattern == 0xC000
    ensures Masks(t) == SpanMasks(0, 3, 9)
  {
    assert [3] + DrainMasks(0xC000, 8) == SpanMasks(0, 3, 9);
  }

  lemma UpperTrainingTags(t: Tags)
    requires t.osets == 3 && t.pattern == 0xFFFC
    ensures Masks(t) == SpanMasks(0, 15, 9)
  {
    assert [3] + DrainMasks(0xFFFC, 8) == SpanMasks(0, 15, 9);
  }

  lemma UpperModifiedComplianceTags(t: Tags)
    requires t.osets == 3 && t.pattern == 0xFC00
    ensures Masks(t) == SpanMasks(0, 7, 9)
  {
    assert [3] + DrainMasks(0xFC00, 8) == SpanMasks(0, 7, 9);
  }

  lemma LowerShortTags(t: Tags)
    requires t.osets == 1 && t.pattern == 0xE000
    ensures Masks(t) == SpanMasks(1, 4, 9)
  {
    assert [1] + DrainMasks(0xE000, 8) == SpanMasks(1, 4, 9);
  }

  lemma LowerModifiedComplianceTags(t: Tags)
    requires t.osets == 1 && t.pattern == 0xFE00
    ensures Masks(t) == SpanMasks(1, 8, 9)
  {
    assert [1] + DrainMasks(0xFE00, 8) == SpanMasks(1, 8, 9);
  }

  /** For every rule but the lower-lane training sets the tags cover
      exactly the symbols of the ordered set, from its COM on. */
  lemma {:induction false} TagsCoverOrderedSet(r: Rule)
    requires IsRule(r) && !LowerTrainingRule(r)
    ensures Masks(Effect(r)) == SpanMasks(Lead(r.lane), Lead(r.lane) + SetLength(r.kind) - 1, 9)
  {
    match r.lane {
      case UpperLane =>
        match r.kind {
          case Ts1 => UpperTrainingTags(Effect(r));
          case Ts2 => UpperTrainingTags(Effect(r));
          case ModifiedCompliance => UpperModifiedComplianceTags(Effect(r));
          case Skip => UpperShortTags(Effect(r));
          case Idle => UpperShortTags(Effect(r));
          case Fts => UpperShortTags(Effect(r));
          case Compliance => UpperShortTags(Effect(r));
        }
      case LowerLane =>
        match r.kind {
          case ModifiedCompliance => LowerModifiedComplianceTags(Effect(r));
          case Skip => LowerShortTags(Effect(r));
          case Idle => LowerShortTags(Effect(r));
          case Fts => LowerShortTags(Effect(r));
          case Compliance => LowerShortTags(Effect(r));
        }
    }
  }

  /** The lower-lane training sets load the upper-lane values: the tags
      start one symbol early, on the symbol before the COM, and leave the
      last identifier of the set untagged. */
  lemma LowerTrainingTagsAsWritten(r: Rule)
    requires LowerTrainingRule(r)
    ensures Masks(Effect(r)) == SpanMasks(0, 15, 9)
    ensures Masks(Effect(r)) != SpanMasks(Lead(r.lane), Lead(r.lane) + SetLength(r.kind) - 1, 9)
  {
    UpperTrainingTags(Effect(r));
    assert SpanMasks(0, 15, 9)[0] & 2 != SpanMasks(1, 16, 9)[0] & 2;
  }

  /** What the lower-lane training rules evidently intend to load: the
      mask and pattern of the other lower-lane rules, stretched to sixteen
      symbols. */
  function CorrectedEffect(r: Rule): (t: Tags)
    ensures t.kind == r.kind
  {
    if LowerTrainingRule(r) then Tags(0x1, r.kind, 0xFFFE) else Effect(r)
  }

  lemma LowerTrainingTags(t: Tags)
    requires t.osets == 1 && t.pattern == 0xFFFE
    ensures Masks(t) == SpanMasks(1, 16, 9)
  {
    assert [1] + DrainMasks(0xFFFE, 8) == SpanMasks(1, 16, 9);
  }

  /** With the corrected loads every rule's tags cover exactly its ordered
      set. */
  lemma CorrectedTagsCoverOrderedSet(r: Rule)
    requires IsRule(r)
    ensures Masks(CorrectedEffect(r)) == SpanMasks(Lead(r.lane), Lead(r.lane) + SetLength(r.kind) - 1, 9)
  {
    if LowerTrainingRule(r) {
      LowerTrainingTags(CorrectedEffect(r));
    } else {
      TagsCoverOrderedSet(r);
    }
  }

  /** Drain cycles keep the shape of a loaded pattern. */
  lemma DrainKeepsTopOnes(t: Tags)
    requires TopOnes(t.pattern)
    ensures TopOnes(Drain(t).pattern)
  {
    DrainStep(t, 0);
  }

  /** Whatever happens in a cycle, the drain register keeps the shape of
      a loaded pattern. */
  lemma NextTagsKeepsTopOnes(t: Tags, w: seq<Word>)
    requires |w| == DEPTH && TopOnes(t.pattern)
    ensures TopOnes(NextTags(t, w).pattern)
  {
    match Detect(w)
    case Some(r) => EffectLoadsTopOnes(r);
    case None => DrainKeepsTopOnes(t);
  }

  // The register chain --------------------------------------------------------

  /** The chain after one cycle: the swapped input enters word0 and every
      word moves one stage on; word9 is dropped. */
  function Shift(w: seq<Word>, sink: Word): (r: seq<Word>)
    requires |w| == DEPTH
    ensures |r| == DEPTH
  {
    [Swap(sink)] + w[..DEPTH - 1]
  }

  /** The chain after the inputs `xs`, oldest first. */
  function ShiftAll(w: seq<Word>, xs: seq<Word>): (r: seq<Word>)
    requires |w| == DEPTH
    ensures |r| == DEPTH
  {
    if xs == [] then w else Shift(ShiftAll(w, xs[..|xs| - 1]), xs[|xs| - 1])
  }

  /** Stage `i` holds the input received `i` cycles before the last one,
      swapped, or the word the chain held before the inputs began. */
  lemma {:induction false} ShiftAllStages(w: seq<Word>, xs: seq<Word>, i: nat)
    requires |w| == DEPTH && i < DEPTH
    ensures ShiftAll(w, xs)[i] == if i < |xs| then Swap(xs[|xs| - 1 - i]) else w[i - |xs|]
  {
    if xs != [] && i > 0 {
      ShiftAllStages(w, xs[..|xs| - 1], i - 1);
    }
  }

  /** Every received word leaves word9, swapped, ten cycles later. */
  lemma Latency(w: seq<Word>, xs: seq<Word>)
    requires |w| == DEPTH && |xs| >= DEPTH
    ensures ShiftAll(w, xs)[DEPTH - 1] == Swap(xs[|xs| - DEPTH])
  {
    ShiftAllStages(w, xs, DEPTH - 1);
  }

  /** The registers after the assignments of one lane's block, which
      run only when that lane of word8 holds a COM. */
  function Apply(lane: Lane, w: seq<Word>, t: Tags): Tags
    requires |w| == DEPTH
  {
    match LaneDetect(lane, w)
    case Some(r) => Effect(r)
    case None => t
  }

  /** A cycle runs the drain step, then the upper-lane block, then the
      lower-lane block, each overriding what came before. */
  lemma NextTagsIsBlocks(t: Tags, w: seq<Word>)
    requires |w| == DEPTH
    ensures NextTags(t, w) == Apply(LowerLane, w, Apply(UpperLane, w, Drain(t)))
  {
  }

  /** The upper-lane block: COM in the upper byte of word8. */
  method UpperBlock(w: seq<Word>, t: Tags) returns (n: Tags)
    requires |w| == DEPTH
    ensures n == Apply(UpperLane, w, t)
  {
    n := t;
    if UpperComma(w) {
      if UpperTriple(w, SKP) {
        n := Tags(0x3, Skip, 0xC000);
      }
      if UpperTriple(w, IDL) {
        n := Tags(0x3, Idle, 0xC000);
      }
      if UpperTriple(w, FTS) {
        n := Tags(0x3, Fts, 0xC000);
      }
      if UpperTraining(w, TS1_ID) {
        n := Tags(0x3, Ts1, 0xFFFC);
      }
      if UpperTraining(w, TS2_ID) {
        n := Tags(0x3, Ts2, 0xFFFC);
      }
      if UpperModifiedCompliance(w) {
        n := Tags(0x3, ModifiedCompliance, 0xFC00);
      } else if UpperCompliance(w) {
        n := Tags(0x3, Compliance, 0xC000);
      }
    }
  }

  /** The lower-lane block: COM in the lower byte of word8. */
  method LowerBlock(w: seq<Word>, t: Tags) returns (n: Tags)
    requires |w| == DEPTH
    ensures n == Apply(LowerLane, w, t)
  {
    n := t;
    if LowerComma(w) {
      if LowerTriple(w, SKP) {
        n := Tags(0x1, Skip, 0xE000);
      }
      if LowerTriple(w, IDL) {
        n := Tags(0x1, Idle, 0xE000);
      }
      if LowerTriple(w, FTS) {
        n := Tags(0x1, Fts, 0xE000);
      }
      if LowerTraining(w, TS1_ID) {
        n := Tags(0x3, Ts1, 0xFFFC);
      }
      if LowerTraining(w, TS2_ID) {
        n := Tags(0x3, Ts2, 0xFFFC);
      }
      if LowerModifiedCompliance(w) {
        n := Tags(0x1, ModifiedCompliance, 0xFE00);
      } else if LowerCompliance(w) {
        n := Tags(0x1, Compliance, 0xE000);
      }
    }
  }

  /** One cycle of the mask, type and drain registers, with the window `w`
      as it stands before the clock edge. */
  method Update(t: Tags, w: seq<Word>) returns (n: Tags)
    requires |w| == DEPTH
    ensures n == NextTags(t, w)
  {
    if Top(t.pattern) != 0 {
      n := Tags(Top(t.pattern), t.kind, t.pattern << 2);
    } else {
      n := Tags(0, Data, t.pattern);
    }
    n := UpperBlock(w, n);
    n := LowerBlock(w, n);
    NextTagsIsBlocks(t, w);
  }

  /** The detector: the register chain and the three tag registers. The
      outgoing word is word9 with the current mask and type. */
  class Detector {
    var words: seq<Word>
    var osets: bv2
    var kind: OsetsType
    var pattern: bv16

    predicate Valid()
      reads this
    {
      |words| == DEPTH && TopOnes(pattern)
    }

    /** The tag registers, gathered as a value. */
    function State(): Tags
      reads this
    {
      Tags(osets, kind, pattern)
    }

    /** The word the detector presents downstream. */
    function Output(): (r: Tagged)
      reads this
      requires Valid()
      ensures r.data == words[DEPTH - 1].data && r.ctrl == words[DEPTH - 1].ctrl
      ensures r.osets == osets && r.kind == kind
    {
      Tagged(words[DEPTH - 1].data, words[DEPTH - 1].ctrl, osets, kind)
    }

    constructor()
      ensures Valid()
      ensures words == seq(DEPTH, _ => Word(0, 0)) && State() == Tags(0, Data, 0)
    {
      words := seq(DEPTH, _ => Word(0, 0));
      osets, kind, pattern := 0, Data, 0;
    }

    /** One clock cycle with `sink` at the input. */
    method Step(sink: Word)
      requires Valid()
      modifies this
      ensures Valid()
      ensures words == Shift(old(words), sink)
      ensures State() == NextTags(old(State()), old(words))
    {
      var n := Update(State(), words);
      NextTagsKeepsTopOnes(State(), words);
      words := Shift(words, sink);
      osets, kind, pattern := n.osets, n.kind, n.pattern;
    }
  }
}
