/** The SKP remover of rx_skp_remover.py. It deletes filler lanes from a
    stream of four-symbol beats and repacks the remaining symbols into
    beats of four through an eight-symbol shift register with a fill
    count. Symbol 0 of a beat is its lowest byte and comes first. */
module SkpRemoval {
  import opened Codes
  import opened Scrambling

  /** One symbol with its K flag. */
  datatype Symbol = Symbol(value: bv8, k: bool)

  /** The K flag of lane `i` of a beat. */
  function KBit(c: bv4, i: nat): bool
    requires i < 4
  {
    if i == 0 then c & 1 != 0
    else if i == 1 then c & 2 != 0
    else if i == 2 then c & 4 != 0
    else c & 8 != 0
  }

  /** The four symbols of a beat, lane 0 first. */
  function Symbols(b: Beat): (r: seq<Symbol>)
    ensures |r| == 4
    ensures forall i :: 0 <= i < 4 ==> r[i] == Symbol(Lane(b.data, i), KBit(b.ctrl, i))
  {
    [Symbol(Lane(b.data, 0), KBit(b.ctrl, 0)), Symbol(Lane(b.data, 1), KBit(b.ctrl, 1)),
     Symbol(Lane(b.data, 2), KBit(b.ctrl, 2)), Symbol(Lane(b.data, 3), KBit(b.ctrl, 3))]
  }

  function Bit(b: bool): bv4
  {
    if b then 1 else 0
  }

  /** The beat holding four symbols, the first in lane 0. */
  function Pack(s: seq<Symbol>): Beat
    requires |s| == 4
  {
    Beat(s[0].value as bv32 | (s[1].value as bv32 << 8) | (s[2].value as bv32 << 16) | (s[3].value as bv32 << 24),
         Bit(s[0].k) | (Bit(s[1].k) << 1) | (Bit(s[2].k) << 2) | (Bit(s[3].k) << 3))
  }

  lemma PackData(s: seq<Symbol>)
    requires |s| == 4
    ensures Lane(Pack(s).data, 0) == s[0].value && Lane(Pack(s).data, 1) == s[1].value
    ensures Lane(Pack(s).data, 2) == s[2].value && Lane(Pack(s).data, 3) == s[3].value
  {
  }

  lemma PackCtrl(s: seq<Symbol>)
    requires |s| == 4
    ensures KBit(Pack(s).ctrl, 0) == s[0].k && KBit(Pack(s).ctrl, 1) == s[1].k
    ensures KBit(Pack(s).ctrl, 2) == s[2].k && KBit(Pack(s).ctrl, 3) == s[3].k
  {
  }

  /** Packing four symbols and reading them back returns them. */
  lemma SymbolsOfPack(s: seq<Symbol>)
    requires |s| == 4
    ensures Symbols(Pack(s)) == s
  {
    PackData(s);
    PackCtrl(s);
  }

  // Filler lanes and the fragment -------------------------------------------

  /** A filler lane: a K symbol equal to K28.1. */
  predicate Filler(s: Symbol)
  {
    s.k && s.value == FTS
  }

  /** The `skp` mask: bit i set when lane i is filler. */
  function SkpMask(b: Beat): bv4
  {
    var s := Symbols(b);
    Bit(Filler(s[0])) | (Bit(Filler(s[1])) << 1) | (Bit(Filler(s[2])) << 2) | (Bit(Filler(s[3])) << 3)
  }

  /** The mask has bit i set exactly when lane i is filler. */
  lemma SkpMaskBits(b: Beat)
    ensures KBit(SkpMask(b), 0) == Filler(Symbols(b)[0]) && KBit(SkpMask(b), 1) == Filler(Symbols(b)[1])
    ensures KBit(SkpMask(b), 2) == Filler(Symbols(b)[2]) && KBit(SkpMask(b), 3) == Filler(Symbols(b)[3])
  {
  }

  /** The lanes `j` .. 3 of `s` whose bit is clear in `mask`, in ascending
      lane order: the entry of the fragment table for `mask`. */
  function Select(s: seq<Symbol>, mask: bv4, j: nat): (r: seq<Symbol>)
    requires |s| == 4 && j <= 4
    ensures |r| <= 4 - j
    decreases 4 - j
  {
    if j == 4 then []
    else (if KBit(mask, j) then [] else [s[j]]) + Select(s, mask, j + 1)
  }

  /** The fragment of a beat. */
  function Fragment(b: Beat): (r: seq<Symbol>)
    ensures |r| <= 4
  {
    Select(Symbols(b), SkpMask(b), 0)
  }

  /** The symbols of `s` that are not filler, in order. */
  function NonFillers(s: seq<Symbol>): (r: seq<Symbol>)
    ensures |r| <= |s|
    ensures forall x :: x in r ==> x in s && !Filler(x)
  {
    if s == [] then [] else (if Filler(s[0]) then [] else [s[0]]) + NonFillers(s[1..])
  }

  lemma SelectWithMaskIsNonFillers(s: seq<Symbol>, mask: bv4, j: nat)
    requires |s| == 4 && j <= 4
    requires KBit(mask, 0) == Filler(s[0]) && KBit(mask, 1) == Filler(s[1])
    requires KBit(mask, 2) == Filler(s[2]) && KBit(mask, 3) == Filler(s[3])
    ensures Select(s, mask, j) == NonFillers(s[j..])
    decreases 4 - j
  {
    if j < 4 {
      SelectWithMaskIsNonFillers(s, mask, j + 1);
      assert s[j..][1..] == s[j + 1..];
    }
  }

  /** The fragment table picks exactly the non-filler lanes of the beat,
      in lane order. */
  lemma FragmentIsNonFillers(b: Beat)
    ensures Fragment(b) == NonFillers(Symbols(b))
  {
    SkpMaskBits(b);
    SelectWithMaskIsNonFillers(Symbols(b), SkpMask(b), 0);
    assert Symbols(b)[0..] == Symbols(b);
  }

  /** Number of filler lanes. */
  function PopCount(mask: bv4): nat
  {
    (if KBit(mask, 0) then 1 else 0) + (if KBit(mask, 1) then 1 else 0)
    + (if KBit(mask, 2) then 1 else 0) + (if KBit(mask, 3) then 1 else 0)
  }

  lemma {:induction false} SelectCount(s: seq<Symbol>, mask: bv4, j: nat)
    requires |s| == 4 && j <= 4
    ensures |Select(s, mask, j)| + (if j <= 0 && KBit(mask, 0) then 1 else 0) + (if j <= 1 && KBit(mask, 1) then 1 else 0)
            + (if j <= 2 && KBit(mask, 2) then 1 else 0) + (if j <= 3 && KBit(mask, 3) then 1 else 0) == 4 - j
    decreases 4 - j
  {
    if j < 4 {
      SelectCount(s, mask, j + 1);
    }
  }

  /** `frag_bytes` is four less the number of filler lanes. */
  lemma FragmentLength(b: Beat)
    ensures |Fragment(b)| == 4 - PopCount(SkpMask(b))
  {
    SelectCount(Symbols(b), SkpMask(b), 0);
  }

  // The shift register --------------------------------------------------------

  /** `sr_data`/`sr_ctrl` as eight symbols, index 0 the lowest byte, and the
      4-bit fill count `sr_bytes`. */
  datatype Register = Register(sr: seq<Symbol>, bytes: bv4)

  predicate Wellformed(r: Register)
  {
    |r.sr| == 8
  }

  /** The fill count as a number. */
  function Fill(r: Register): nat
  {
    r.bytes as nat
  }

  /** `sink.ready` as written. */
  function SinkReady(r: Register): bool
  {
    r.bytes <= 7
  }

  /** `source.valid`. */
  function SourceValid(r: Register): bool
  {
    r.bytes >= 4
  }

  /** The buffered symbols, oldest first: the top `Fill(r)` bytes. */
  function Content(r: Register): (c: seq<Symbol>)
    requires Wellformed(r) && Fill(r) <= 8
    ensures |c| == Fill(r)
  {
    r.sr[8 - Fill(r)..]
  }

  /** The output beat: for a fill of 4 .. 7 the bytes 8 - n .. 11 - n;
      for any other fill nothing drives the output, which stays 0. */
  function Source(r: Register): Beat
    requires Wellformed(r)
  {
    if 4 <= Fill(r) <= 7 then Pack(r.sr[8 - Fill(r)..12 - Fill(r)]) else Beat(0, 0)
  }

  /** When there is a word to emit, the output holds the four oldest
      buffered symbols in order. */
  lemma SourceIsOldest(r: Register)
    requires Wellformed(r) && 4 <= Fill(r) <= 7
    ensures Symbols(Source(r)) == Content(r)[..4]
  {
    SymbolsOfPack(r.sr[8 - Fill(r)..12 - Fill(r)]);
  }

  /** Which handshake drives `sink.ready`: the code as written, or the
      corrected form that also looks at `source.ready`. */
  datatype Policy = AsWritten | Corrected

  /** `sink.ready` under either policy. */
  function ReadyUnder(p: Policy, r: Register, sourceReady: bool): bool
  {
    match p
    case AsWritten => SinkReady(r)
    case Corrected => r.bytes <= 3 || (sourceReady && r.bytes <= 7)
  }

  /** The `skip` output: an accepted beat with at least one filler lane. */
  function Skip(r: Register, sink: Beat, sinkValid: bool): bool
  {
    sinkValid && SinkReady(r) && SkpMask(sink) != 0
  }

  /** `skip` is raised exactly when an accepted beat loses a lane. */
  lemma SkipMeansLaneDropped(r: Register, sink: Beat, sinkValid: bool)
    ensures Skip(r, sink, sinkValid) <==> sinkValid && SinkReady(r) && |Fragment(sink)| < 4
  {
    FragmentLength(sink);
  }

  /** `sr_data`/`sr_ctrl` after a clock edge: an accepted fragment of
      `i` >= 1 symbols drops the lowest `i` symbols and enters at the top;
      otherwise they hold. */
  function NextSr(sr: seq<Symbol>, frag: seq<Symbol>, accept: bool): (r: seq<Symbol>)
    requires |sr| == 8 && |frag| <= 4
    ensures |r| == 8
  {
    if accept && |frag| != 0 then sr[|frag|..] + frag else sr
  }

  /** `sr_bytes` after a clock edge, in 4-bit arithmetic. */
  function NextBytes(bytes: bv4, f: nat, accept: bool, emit: bool): bv4
    requires f <= 4
  {
    if accept && emit then bytes + f as bv4 - 4
    else if accept then bytes + f as bv4
    else if emit then bytes - 4
    else bytes
  }

  /** The count moves by the accepted fragment and the emitted word without
      wrapping, since a beat is accepted only at a count of at most 7 and a
      word is emitted only at a count of at least 4. */
  lemma NextBytesMoves(bytes: bv4, f: nat, accept: bool, emit: bool)
    requires f <= 4 && (accept ==> bytes <= 7) && (emit ==> bytes >= 4)
    ensures NextBytes(bytes, f, accept, emit) as nat ==
            bytes as nat + (if accept then f else 0) - (if emit then 4 else 0)
  {
  }

  /** The register after one clock edge, with `accept` = sink valid and
      ready, and an emit when the output is valid and taken. */
  function NextWith(r: Register, frag: seq<Symbol>, accept: bool, sourceReady: bool): (n: Register)
    requires Wellformed(r) && |frag| <= 4
    ensures Wellformed(n)
  {
    Register(NextSr(r.sr, frag, accept),
             NextBytes(r.bytes, |frag|, accept, SourceValid(r) && sourceReady))
  }

  function NextUnder(p: Policy, r: Register, sink: Beat, sinkValid: bool, sourceReady: bool): (n: Register)
    requires Wellformed(r)
    ensures Wellformed(n)
  {
    NextWith(r, Fragment(sink), sinkValid && ReadyUnder(p, r, sourceReady), sourceReady)
  }

  /** The fill count moves by the accepted fragment and the emitted word,
      without wrapping: it never underflows, and stays below 16. */
  lemma NextFill(r: Register, frag: seq<Symbol>, accept: bool, sourceReady: bool)
    requires Wellformed(r) && |frag| <= 4 && (accept ==> Fill(r) <= 7)
    ensures Fill(NextWith(r, frag, accept, sourceReady)) ==
            Fill(r) + (if accept then |frag| else 0) - (if SourceValid(r) && sourceReady then 4 else 0)
  {
    NextBytesMoves(r.bytes, |frag|, accept, SourceValid(r) && sourceReady);
  }

  /** The symbols one cycle emits and accepts. */
  function Emitted(r: Register, sourceReady: bool): seq<Symbol>
    requires Wellformed(r)
  {
    if SourceValid(r) && sourceReady then Symbols(Source(r)) else []
  }

  function Accepted(frag: seq<Symbol>, accept: bool): seq<Symbol>
  {
    if accept then frag else []
  }

  lemma DropAppend<T>(a: seq<T>, b: seq<T>, f: nat, k: nat)
    requires f + k <= |a|
    ensures (a[f..] + b)[k..] == a[f + k..] + b
  {
  }

  lemma TakeDrop<T>(a: seq<T>, k: nat)
    requires k <= |a|
    ensures a[..k] + a[k..] == a
  {
  }

  /** The top `m` symbols after a cycle whose count goes from `n` to `m`:
      the top `n` before, less the `e` oldest, followed by the accepted
      fragment. */
  lemma NextSrTop(sr: seq<Symbol>, frag: seq<Symbol>, accept: bool, n: nat, e: nat, m: nat)
    requires |sr| == 8 && |frag| <= 4 && e <= n <= 8 && m <= 8
    requires m == n + (if accept then |frag| else 0) - e
    ensures NextSr(sr, frag, accept)[8 - m..] == sr[8 - n + e..] + (if accept then frag else [])
  {
    if accept && |frag| != 0 {
      DropAppend(sr, frag, |frag|, 8 - m);
    }
  }

  /** The buffer after a cycle: what was buffered less the emitted word,
      followed by the accepted fragment. */
  lemma NextContent(r: Register, frag: seq<Symbol>, accept: bool, sourceReady: bool)
    requires Wellformed(r) && |frag| <= 4 && Fill(r) <= 7
    requires Fill(r) + (if accept then |frag| else 0) - (if SourceValid(r) && sourceReady then 4 else 0) <= 7
    ensures Fill(NextWith(r, frag, accept, sourceReady)) <= 7
    ensures Content(NextWith(r, frag, accept, sourceReady))
            == Content(r)[if SourceValid(r) && sourceReady then 4 else 0..] + Accepted(frag, accept)
  {
    NextFill(r, frag, accept, sourceReady);
    NextSrTop(r.sr, frag, accept, Fill(r), if SourceValid(r) && sourceReady then 4 else 0,
              Fill(NextWith(r, frag, accept, sourceReady)));
  }

  lemma Regroup<T>(c: seq<T>, e: nat, out: seq<T>, next: seq<T>, acc: seq<T>)
    requires e <= |c| && out == c[..e] && next == c[e..] + acc
    ensures out + next == c + acc
  {
  }

  /** One cycle loses and invents nothing, as long as the fill stays within
      0 .. 7 before and after: what leaves followed by what is buffered
      afterwards is what was buffered followed by what entered. */
  lemma StepConserves(r: Register, frag: seq<Symbol>, accept: bool, sourceReady: bool)
    requires Wellformed(r) && |frag| <= 4 && Fill(r) <= 7
    requires Fill(r) + (if accept then |frag| else 0) - (if SourceValid(r) && sourceReady then 4 else 0) <= 7
    ensures Fill(NextWith(r, frag, accept, sourceReady)) <= 7
    ensures Emitted(r, sourceReady) + Content(NextWith(r, frag, accept, sourceReady))
            == Content(r) + Accepted(frag, accept)
  {
    NextContent(r, frag, accept, sourceReady);
    var e := if SourceValid(r) && sourceReady then 4 else 0;
    if e == 4 {
      SourceIsOldest(r);
    }
    Regroup(Content(r), e, Emitted(r, sourceReady), Content(NextWith(r, frag, accept, sourceReady)), Accepted(frag, accept));
  }

  /** Under either policy a fill of 0 .. 7 stays there when the output is
      always taken. */
  lemma FillBoundedWhenDrained(p: Policy, r: Register, sink: Beat, sinkValid: bool)
    requires Wellformed(r) && Fill(r) <= 7
    ensures Fill(NextUnder(p, r, sink, sinkValid, true)) <= 7
  {
    NextFill(r, Fragment(sink), sinkValid && ReadyUnder(p, r, true), true);
  }

  /** Under the corrected policy the fill stays within 0 .. 7 whatever the
      downstream does. */
  lemma CorrectedFillBounded(r: Register, sink: Beat, sinkValid: bool, sourceReady: bool)
    requires Wellformed(r) && Fill(r) <= 7
    ensures Fill(NextUnder(Corrected, r, sink, sinkValid, sourceReady)) <= 7
  {
    NextFill(r, Fragment(sink), sinkValid && ReadyUnder(Corrected, r, sourceReady), sourceReady);
  }

  /** A register holding the data bytes 1 .. 8 in order, one more stored
      than `sr_bytes` counts. */
  const SEVEN: Register := Register([Symbol(1, false), Symbol(2, false), Symbol(3, false), Symbol(4, false),
                                     Symbol(5, false), Symbol(6, false), Symbol(7, false), Symbol(8, false)], 7)

  /** As written, a stalled downstream at fill 7 lets a beat of four data
      symbols in: the fill reaches 11, more than the eight symbols the
      register holds, and the output, which has no case for 11, is then a
      valid beat of zeros. */
  lemma StalledOverflow()
    ensures SinkReady(SEVEN) && |Fragment(Beat(0x0C0B0A09, 0))| == 4
    ensures NextUnder(AsWritten, SEVEN, Beat(0x0C0B0A09, 0), true, false).bytes == 11
    ensures SourceValid(NextUnder(AsWritten, SEVEN, Beat(0x0C0B0A09, 0), true, false))
    ensures Source(NextUnder(AsWritten, SEVEN, Beat(0x0C0B0A09, 0), true, false)) == Beat(0, 0)
  {
    assert SkpMask(Beat(0x0C0B0A09, 0)) == 0;
  }

  // Streams ---------------------------------------------------------------------

  /** What one cycle sees: the input beat with its valid flag, and the
      downstream ready flag. */
  datatype Input = Input(beat: Beat, valid: bool, sourceReady: bool)

  /** The register after the cycles `ins`. */
  function Run(p: Policy, r: Register, ins: seq<Input>): (n: Register)
    requires Wellformed(r)
    ensures Wellformed(n)
    decreases |ins|
  {
    if ins == [] then r
    else Run(p, NextUnder(p, r, ins[0].beat, ins[0].valid, ins[0].sourceReady), ins[1..])
  }

  /** The symbols emitted during the cycles `ins`. */
  function Output(p: Policy, r: Register, ins: seq<Input>): seq<Symbol>
    requires Wellformed(r)
    decreases |ins|
  {
    if ins == [] then []
    else Emitted(r, ins[0].sourceReady)
         + Output(p, NextUnder(p, r, ins[0].beat, ins[0].valid, ins[0].sourceReady), ins[1..])
  }

  /** The symbols accepted during the cycles `ins`. */
  function Taken(p: Policy, r: Register, ins: seq<Input>): seq<Symbol>
    requires Wellformed(r)
    decreases |ins|
  {
    if ins == [] then []
    else Accepted(Fragment(ins[0].beat), ins[0].valid && ReadyUnder(p, r, ins[0].sourceReady))
         + Taken(p, NextUnder(p, r, ins[0].beat, ins[0].valid, ins[0].sourceReady), ins[1..])
  }

  /** The non-filler symbols of the valid beats of `ins`, in order. */
  function Offered(ins: seq<Input>): seq<Symbol>
    decreases |ins|
  {
    if ins == [] then []
    else (if ins[0].valid then NonFillers(Symbols(ins[0].beat)) else []) + Offered(ins[1..])
  }

  /** The downstream takes the output in every cycle. */
  predicate AlwaysTaken(ins: seq<Input>)
  {
    forall i :: 0 <= i < |ins| ==> ins[i].sourceReady
  }

  lemma AlwaysTakenTail(ins: seq<Input>)
    requires ins != [] && AlwaysTaken(ins)
    ensures AlwaysTaken(ins[1..])
  {
    forall j | 0 <= j < |ins[1..]|
      ensures ins[1..][j].sourceReady
    {
      assert ins[1..][j] == ins[j + 1];
    }
  }

  /** One cycle of a run that keeps the fill within 0 .. 7. */
  lemma CycleConserves(p: Policy, r: Register, i: Input)
    requires Wellformed(r) && Fill(r) <= 7
    requires p == AsWritten ==> i.sourceReady
    ensures Fill(NextUnder(p, r, i.beat, i.valid, i.sourceReady)) <= 7
    ensures Emitted(r, i.sourceReady) + Content(NextUnder(p, r, i.beat, i.valid, i.sourceReady))
            == Content(r) + Accepted(Fragment(i.beat), i.valid && ReadyUnder(p, r, i.sourceReady))
  {
    var frag := Fragment(i.beat);
    var accept := i.valid && ReadyUnder(p, r, i.sourceReady);
    if p == AsWritten {
      FillBoundedWhenDrained(p, r, i.beat, i.valid);
    } else {
      CorrectedFillBounded(r, i.beat, i.valid, i.sourceReady);
    }
    NextFill(r, frag, accept, i.sourceReady);
    StepConserves(r, frag, accept, i.sourceReady);
  }

  /** Over any run that keeps the fill within 0 .. 7 (the code as written
      with the output always taken, or the corrected handshake with any
      downstream), the emitted symbols followed by what is still buffered
      are the symbols buffered at the start followed by all accepted
      ones. */
  lemma {:induction false} RunConserves(p: Policy, r: Register, ins: seq<Input>)
    requires Wellformed(r) && Fill(r) <= 7
    requires p == AsWritten ==> AlwaysTaken(ins)
    ensures Fill(Run(p, r, ins)) <= 7
    ensures Output(p, r, ins) + Content(Run(p, r, ins)) == Content(r) + Taken(p, r, ins)
    decreases |ins|
  {
    if ins != [] {
      var i := ins[0];
      var n := NextUnder(p, r, i.beat, i.valid, i.sourceReady);
      CycleConserves(p, r, i);
      if p == AsWritten {
        AlwaysTakenTail(ins);
      }
      RunConserves(p, n, ins[1..]);
      Chain(Emitted(r, i.sourceReady), Output(p, n, ins[1..]), Content(Run(p, n, ins[1..])),
            Content(n), Content(r), Accepted(Fragment(i.beat), i.valid && ReadyUnder(p, r, i.sourceReady)),
            Taken(p, n, ins[1..]));
    }
  }

  lemma Chain<T>(e: seq<T>, o: seq<T>, c2: seq<T>, c1: seq<T>, c0: seq<T>, a: seq<T>, t: seq<T>)
    requires e + c1 == c0 + a && o + c2 == c1 + t
    ensures (e + o) + c2 == c0 + (a + t)
  {
    calc {
      (e + o) + c2;
      e + (o + c2);
      e + (c1 + t);
      (e + c1) + t;
      (c0 + a) + t;
      c0 + (a + t);
    }
  }

  /** As written, with the output always taken, every valid beat is
      accepted, so the accepted symbols are those of the input with the
      filler lanes deleted. */
  lemma {:induction false} TakenIsOffered(r: Register, ins: seq<Input>)
    requires Wellformed(r) && Fill(r) <= 7 && AlwaysTaken(ins)
    ensures Taken(AsWritten, r, ins) == Offered(ins)
    decreases |ins|
  {
    if ins != [] {
      FillBoundedWhenDrained(AsWritten, r, ins[0].beat, ins[0].valid);
      FragmentIsNonFillers(ins[0].beat);
      AlwaysTakenTail(ins);
      TakenIsOffered(NextUnder(AsWritten, r, ins[0].beat, ins[0].valid, ins[0].sourceReady), ins[1..]);
    }
  }

  /** With the output always taken, what the remover emits followed by
      what it still buffers is what it buffered at the start followed by
      the input stream with the filler lanes deleted, order preserved. */
  lemma RemovesFillersInOrder(r: Register, ins: seq<Input>)
    requires Wellformed(r) && Fill(r) <= 7 && AlwaysTaken(ins)
    ensures Fill(Run(AsWritten, r, ins)) <= 7
    ensures Output(AsWritten, r, ins) + Content(Run(AsWritten, r, ins)) == Content(r) + Offered(ins)
  {
    RunConserves(AsWritten, r, ins);
    TakenIsOffered(r, ins);
  }

  /** The remover's registers. */
  class SkpRemover {
    var sr: seq<Symbol>
    var bytes: bv4

    predicate Valid()
      reads this
    {
      |sr| == 8
    }

    /** The registers, gathered as a value. */
    function State(): Register
      reads this
    {
      Register(sr, bytes)
    }

    constructor()
      ensures Valid() && sr == seq(8, _ => Symbol(0, false)) && bytes == 0
    {
      sr := seq(8, _ => Symbol(0, false));
      bytes := 0;
    }

    /** One clock edge. `sink.ready` and `source.valid` are those of the
        state before the edge. */
    method Step(sink: Beat, sinkValid: bool, sourceReady: bool)
      requires Valid()
      modifies this
      ensures Valid()
      ensures State() == NextUnder(AsWritten, old(State()), sink, sinkValid, sourceReady)
    {
      var frag := Fragment(sink);
      if sinkValid && bytes <= 7 {
        if bytes >= 4 && sourceReady {
          bytes := bytes + |frag| as bv4 - 4;
        } else {
          bytes := bytes + |frag| as bv4;
        }
        if |frag| != 0 {
          sr := sr[|frag|..] + frag;
        }
      } else if bytes >= 4 && sourceReady {
        bytes := bytes - 4;
      }
    }
  }
}
