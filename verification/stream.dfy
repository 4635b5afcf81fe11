/** The streaming half of the chat handler: the `for await` loop of
    `handleStreamResponse`, which concatenates text deltas, forwards each one
    to the chunk callback with its markers stripped, and assembles tool calls
    from fragments, slot by slot. */
module Stream {
  import opened Wrappers
  import opened Text
  import opened Knowledge
  import opened Tools

  /** One entry of a delta's `tool_calls` array. Its `index` field is not
      modelled: the loop never reads it. */
  datatype CallFragment = CallFragment(id: Option<string>, name: Option<string>, arguments: Option<string>)

  datatype Delta = Delta(content: Option<string>, toolCalls: Option<seq<CallFragment>>)

  /** One streamed chunk, reduced to `chunk.choices[0]?.delta`; `None` when
      the chunk has no choice or the choice no delta. */
  datatype Chunk = Chunk(delta: Option<Delta>)

  /** JavaScript truthiness of an optional string. */
  predicate Truthy(o: Option<string>)
  {
    o.Some? && o.value != ""
  }

  /** The milliseconds `Date.now()` reads when slot `i` is created while chunk
      `k` is processed, as `clock(k, i)`. */
  type Clock = (nat, nat) -> nat

  predicate HasText(c: Chunk)
  {
    c.delta.Some? && Truthy(c.delta.value.content)
  }

  function TextOf(c: Chunk): string
  {
    if HasText(c) then c.delta.value.content.value else ""
  }

  function Fragments(c: Chunk): seq<CallFragment>
  {
    if c.delta.Some? && c.delta.value.toolCalls.Some? then c.delta.value.toolCalls.value else []
  }

  function Width(c: Chunk): nat
  {
    |Fragments(c)|
  }

  /** The name fragment at array position `i` of the chunk, "" if none. */
  function NamePart(c: Chunk, i: nat): string
  {
    if i < Width(c) && Truthy(Fragments(c)[i].name) then Fragments(c)[i].name.value else ""
  }

  /** The argument fragment at array position `i` of the chunk, "" if none. */
  function ArgsPart(c: Chunk, i: nat): string
  {
    if i < Width(c) && Truthy(Fragments(c)[i].arguments) then Fragments(c)[i].arguments.value else ""
  }

  /** `fullContent`: the text deltas, in arrival order. */
  function FullText(s: seq<Chunk>): string
    decreases |s|
  {
    if s == [] then "" else FullText(s[..|s| - 1]) + TextOf(s[|s| - 1])
  }

  /** What one chunk hands to `onChunk`: its text delta with markers
      stripped, or nothing when it has no text. */
  function Echo(c: Chunk): seq<string>
  {
    if HasText(c) then [StripKnowledgeTags(TextOf(c))] else []
  }

  /** The arguments of the successive `onChunk` calls: one per non-empty text
      delta, each stripped on its own. */
  function Emitted(s: seq<Chunk>): seq<string>
    decreases |s|
  {
    if s == [] then [] else Emitted(s[..|s| - 1]) + Echo(s[|s| - 1])
  }

  /** The longest `tool_calls` array seen. */
  function MaxWidth(s: seq<Chunk>): nat
    decreases |s|
  {
    if s == [] then 0
    else var w := MaxWidth(s[..|s| - 1]); if w < Width(s[|s| - 1]) then Width(s[|s| - 1]) else w
  }

  /** Every name fragment seen at array position `i`, in arrival order. */
  function SlotName(s: seq<Chunk>, i: nat): string
    decreases |s|
  {
    if s == [] then "" else SlotName(s[..|s| - 1], i) + NamePart(s[|s| - 1], i)
  }

  /** Every argument fragment seen at array position `i`, in arrival order. */
  function SlotArgs(s: seq<Chunk>, i: nat): string
    decreases |s|
  {
    if s == [] then "" else SlotArgs(s[..|s| - 1], i) + ArgsPart(s[|s| - 1], i)
  }

  /** The id given to a slot when it is created: `deltaToolCall.id ||
      \`tool_${Date.now()}_${i}\``. */
  function IdFor(f: CallFragment, ms: nat, i: nat): string
  {
    if Truthy(f.id) then f.id.value else FallbackId(ms, i)
  }

  function FallbackId(ms: nat, i: nat): string
  {
    "tool_" + NatToString(ms) + "_" + NatToString(i)
  }

  /** The id of slot `i`: fixed by the chunk that created the slot. */
  function SlotId(s: seq<Chunk>, clock: Clock, i: nat): string
    requires i < MaxWidth(s)
    decreases |s|
  {
    var init := s[..|s| - 1];
    if i < MaxWidth(init) then SlotId(init, clock, i)
    else IdFor(Fragments(s[|s| - 1])[i], clock(|s| - 1, i), i)
  }

  function Slot(s: seq<Chunk>, clock: Clock, i: nat): PendingCall
    requires i < MaxWidth(s)
  {
    PendingCall(SlotId(s, clock, i), SlotName(s, i), SlotArgs(s, i))
  }

  /** `accumulatedToolCalls` at the end of the stream. */
  function Slots(s: seq<Chunk>, clock: Clock): seq<PendingCall>
  {
    seq(MaxWidth(s), i requires 0 <= i < MaxWidth(s) => Slot(s, clock, i))
  }

  // ---------------------------------------------------------------------
  // Properties of the specification

  /** The number of slots is the length of the longest `tool_calls` array. */
  lemma {:induction false} MaxWidthIsMaximum(s: seq<Chunk>)
    ensures forall k :: 0 <= k < |s| ==> Width(s[k]) <= MaxWidth(s)
    ensures MaxWidth(s) == 0 || exists k :: 0 <= k < |s| && Width(s[k]) == MaxWidth(s)
    decreases |s|
  {
    if s != [] {
      var init := s[..|s| - 1];
      MaxWidthIsMaximum(init);
      assert forall k :: 0 <= k < |init| ==> s[k] == init[k];
    }
  }

  /** The text of a stream is the text of its halves, whatever the split. */
  lemma {:induction false} FullTextAppend(s: seq<Chunk>, t: seq<Chunk>)
    ensures FullText(s + t) == FullText(s) + FullText(t)
    decreases |t|
  {
    if t == [] {
      assert s + t == s;
    } else {
      var init, last := t[..|t| - 1], t[|t| - 1];
      assert t == init + [last];
      ConcatAssoc(s, init, [last]);
      FullTextAppend(s, init);
      FullTextStep(s + init, last);
      FullTextStep(init, last);
      ConcatAssoc(FullText(s), FullText(init), TextOf(last));
    }
  }

  /** So are the callback's arguments. */
  lemma {:induction false} EmittedAppend(s: seq<Chunk>, t: seq<Chunk>)
    ensures Emitted(s + t) == Emitted(s) + Emitted(t)
    decreases |t|
  {
    if t == [] {
      assert s + t == s;
    } else {
      var init, last := t[..|t| - 1], t[|t| - 1];
      assert t == init + [last];
      ConcatAssoc(s, init, [last]);
      EmittedAppend(s, init);
      EmittedStep(s + init, last);
      EmittedStep(init, last);
      ConcatAssoc(Emitted(s), Emitted(init), Echo(last));
    }
  }

  /** A slot's name is the in-order concatenation of the name fragments at
      its position, whatever the split of the stream. */
  lemma {:induction false} SlotNameAppend(s: seq<Chunk>, t: seq<Chunk>, i: nat)
    ensures SlotName(s + t, i) == SlotName(s, i) + SlotName(t, i)
    decreases |t|
  {
    if t == [] {
      assert s + t == s;
    } else {
      var init, last := t[..|t| - 1], t[|t| - 1];
      assert t == init + [last];
      ConcatAssoc(s, init, [last]);
      SlotNameAppend(s, init, i);
      NameStep(s + init, last, i);
      NameStep(init, last, i);
      ConcatAssoc(SlotName(s, i), SlotName(init, i), NamePart(last, i));
    }
  }

  /** Likewise for the argument text. */
  lemma {:induction false} SlotArgsAppend(s: seq<Chunk>, t: seq<Chunk>, i: nat)
    ensures SlotArgs(s + t, i) == SlotArgs(s, i) + SlotArgs(t, i)
    decreases |t|
  {
    if t == [] {
      assert s + t == s;
    } else {
      var init, last := t[..|t| - 1], t[|t| - 1];
      assert t == init + [last];
      ConcatAssoc(s, init, [last]);
      SlotArgsAppend(s, init, i);
      ArgsStep(s + init, last, i);
      ArgsStep(init, last, i);
      ConcatAssoc(SlotArgs(s, i), SlotArgs(init, i), ArgsPart(last, i));
    }
  }

  lemma {:induction false} MaxWidthAppend(s: seq<Chunk>, t: seq<Chunk>)
    ensures MaxWidth(s) <= MaxWidth(s + t)
    decreases |t|
  {
    if t == [] {
      assert s + t == s;
    } else {
      var n := |t|;
      var u := s + t;
      assert u[..|u| - 1] == s + t[..n - 1];
      MaxWidthAppend(s, t[..n - 1]);
      assert MaxWidth(u[..|u| - 1]) <= MaxWidth(u);
    }
  }

  /** Later fragments never change a slot's id. */
  lemma {:induction false} SlotIdStable(s: seq<Chunk>, t: seq<Chunk>, clock: Clock, i: nat)
    requires i < MaxWidth(s)
    ensures i < MaxWidth(s + t) && SlotId(s + t, clock, i) == SlotId(s, clock, i)
    decreases |t|
  {
    MaxWidthAppend(s, t);
    if t == [] {
      assert s + t == s;
    } else {
      var n := |t|;
      assert (s + t)[..|s + t| - 1] == s + t[..n - 1];
      SlotIdStable(s, t[..n - 1], clock, i);
    }
  }

  /** Slot `i` takes its id from the first chunk whose `tool_calls` array
      reaches position `i`: that fragment's id if non-empty, otherwise an id
      generated from the clock reading at that chunk. */
  lemma SlotIdFromFirstFragment(s: seq<Chunk>, clock: Clock, i: nat, k: nat)
    requires k < |s| && i < Width(s[k])
    requires forall j :: 0 <= j < k ==> Width(s[j]) <= i
    ensures i < MaxWidth(s)
    ensures SlotId(s, clock, i) == IdFor(Fragments(s[k])[i], clock(k, i), i)
  {
    var upto := s[..k + 1];
    assert upto[..k] == s[..k];
    MaxWidthBound(s[..k], i);
    SlotCreated(upto, clock, i);
    assert s == upto + s[k + 1..];
    SlotIdStable(upto, s[k + 1..], clock, i);
  }

  /** A width that no chunk exceeds bounds the number of slots. */
  lemma {:induction false} MaxWidthBound(s: seq<Chunk>, w: nat)
    requires forall j :: 0 <= j < |s| ==> Width(s[j]) <= w
    ensures MaxWidth(s) <= w
    decreases |s|
  {
    if s != [] {
      var init := s[..|s| - 1];
      assert forall j :: 0 <= j < |init| ==> init[j] == s[j];
      MaxWidthBound(init, w);
    }
  }

  /** A chunk that reaches past every earlier slot creates slot `i` with the
      id its own fragment gives. */
  lemma SlotCreated(s: seq<Chunk>, clock: Clock, i: nat)
    requires s != [] && MaxWidth(s[..|s| - 1]) <= i < Width(s[|s| - 1])
    ensures i < MaxWidth(s)
    ensures SlotId(s, clock, i) == IdFor(Fragments(s[|s| - 1])[i], clock(|s| - 1, i), i)
  {
  }

  /** Generated ids are never empty, so every slot has a non-empty id. */
  lemma {:induction false} SlotIdNonEmpty(s: seq<Chunk>, clock: Clock, i: nat)
    requires i < MaxWidth(s)
    ensures SlotId(s, clock, i) != ""
    decreases |s|
  {
    var init := s[..|s| - 1];
    if i < MaxWidth(init) {
      SlotIdNonEmpty(init, clock, i);
    }
  }

  /** The first position at or after `from` holding `c`, or `|s|`. */
  function FindChar(s: string, c: char, from: nat): (p: nat)
    decreases |s| - from
  {
    if |s| <= from then |s| else if s[from] == c then from else FindChar(s, c, from + 1)
  }

  lemma {:induction false} FindCharAt(s: string, c: char, from: nat, p: nat)
    requires from <= p < |s| && s[p] == c
    requires forall q :: from <= q < p ==> s[q] != c
    ensures FindChar(s, c, from) == p
    decreases p - from
  {
    if from < p {
      FindCharAt(s, c, from + 1, p);
    }
  }

  /** Generated ids differ for different clock readings or positions. */
  lemma FallbackIdInjective(a: nat, i: nat, b: nat, j: nat)
    requires FallbackId(a, i) == FallbackId(b, j)
    ensures a == b && i == j
  {
    var x, y := NatToString(a), NatToString(b);
    var s := FallbackId(a, i);
    var t := FallbackId(b, j);
    assert forall q :: 5 <= q < 5 + |x| ==> s[q] == x[q - 5];
    FindCharAt(s, '_', 5, 5 + |x|);
    assert forall q :: 5 <= q < 5 + |y| ==> t[q] == y[q - 5];
    FindCharAt(t, '_', 5, 5 + |y|);
    assert |x| == |y|;
    assert x == s[5..5 + |x|] == t[5..5 + |y|] == y;
    assert NatToString(i) == s[6 + |x|..] == t[6 + |y|..] == NatToString(j);
    NatToStringRoundTrip(a);
    NatToStringRoundTrip(b);
    NatToStringRoundTrip(i);
    NatToStringRoundTrip(j);
  }

  lemma {:induction false} SlotTextBeyondWidth(s: seq<Chunk>, i: nat)
    requires MaxWidth(s) <= i
    ensures SlotName(s, i) == "" && SlotArgs(s, i) == ""
    decreases |s|
  {
    if s != [] {
      SlotTextBeyondWidth(s[..|s| - 1], i);
    }
  }

  // ---------------------------------------------------------------------
  // Consequences of keying slots by array position

  function CallChunk(fs: seq<CallFragment>): Chunk
  {
    Chunk(Some(Delta(None, Some(fs))))
  }

  function TextChunk(t: string): Chunk
  {
    Chunk(Some(Delta(Some(t), None)))
  }

  lemma WidthStep(s: seq<Chunk>, c: Chunk)
    ensures MaxWidth(s + [c]) == if MaxWidth(s) < Width(c) then Width(c) else MaxWidth(s)
  {
    assert (s + [c])[..|s|] == s;
  }

  lemma NameStep(s: seq<Chunk>, c: Chunk, i: nat)
    ensures SlotName(s + [c], i) == SlotName(s, i) + NamePart(c, i)
  {
    assert (s + [c])[..|s|] == s;
  }

  lemma ArgsStep(s: seq<Chunk>, c: Chunk, i: nat)
    ensures SlotArgs(s + [c], i) == SlotArgs(s, i) + ArgsPart(c, i)
  {
    assert (s + [c])[..|s|] == s;
  }

  /** The slots after two chunks, position by position. */
  lemma TwoChunksWidth(c1: Chunk, c2: Chunk)
    ensures MaxWidth([c1, c2]) == if Width(c1) < Width(c2) then Width(c2) else Width(c1)
  {
    var s0: seq<Chunk> := [];
    assert [c1] == s0 + [c1] && [c1, c2] == [c1] + [c2];
    WidthStep(s0, c1);
    WidthStep([c1], c2);
  }

  lemma TwoChunksText(c1: Chunk, c2: Chunk, i: nat)
    ensures SlotName([c1, c2], i) == NamePart(c1, i) + NamePart(c2, i)
    ensures SlotArgs([c1, c2], i) == ArgsPart(c1, i) + ArgsPart(c2, i)
  {
    var s0: seq<Chunk> := [];
    assert [c1] == s0 + [c1] && [c1, c2] == [c1] + [c2];
    NameStep(s0, c1, i);
    NameStep([c1], c2, i);
    ArgsStep(s0, c1, i);
    ArgsStep([c1], c2, i);
    assert "" + NamePart(c1, i) == NamePart(c1, i);
    assert "" + ArgsPart(c1, i) == ArgsPart(c1, i);
  }

  lemma TwoChunksId(c1: Chunk, c2: Chunk, clock: Clock, i: nat)
    requires i < Width(c1)
    ensures i < MaxWidth([c1, c2])
    ensures SlotId([c1, c2], clock, i) == IdFor(Fragments(c1)[i], clock(0, i), i)
  {
    var s1, s2 := [c1], [c1, c2];
    assert s1[..0] == [];
    assert MaxWidth(s1) == Width(c1);
    assert SlotId(s1, clock, i) == IdFor(Fragments(c1)[i], clock(0, i), i);
    assert s2[..1] == s1;
    TwoChunksWidth(c1, c2);
  }

  /** Two calls whose fragments arrive in separate single-element chunks
      share slot 0: the second id is dropped and the names run together. */
  lemma SeparateCallsShareSlotZero(a: string, b: string, n1: string, n2: string, clock: Clock)
    requires a != "" && n1 != "" && n2 != ""
    ensures Slots([CallChunk([CallFragment(Some(a), Some(n1), None)]),
                   CallChunk([CallFragment(Some(b), Some(n2), None)])], clock)
         == [PendingCall(a, n1 + n2, "")]
  {
    var c1 := CallChunk([CallFragment(Some(a), Some(n1), None)]);
    var c2 := CallChunk([CallFragment(Some(b), Some(n2), None)]);
    var e: string := "";
    OneSlot([c1, c2], clock);
    TwoChunksText(c1, c2, 0);
    assert NamePart(c1, 0) == n1 && NamePart(c2, 0) == n2;
    assert ArgsPart(c1, 0) == e && ArgsPart(c2, 0) == e;
    assert e + e == e;
  }

  /** Fragments of two interleaved calls, each in its own single-element
      chunk (first name, second name, first arguments, second arguments),
      all land in slot 0: one call whose name and arguments are the two
      calls' texts run together, under a generated id. */
  lemma InterleavedCallsCollapse(n1: string, n2: string, a1: string, a2: string, clock: Clock)
    requires n1 != "" && n2 != "" && a1 != "" && a2 != ""
    ensures Slots([CallChunk([CallFragment(None, Some(n1), None)]),
                   CallChunk([CallFragment(None, Some(n2), None)]),
                   CallChunk([CallFragment(None, None, Some(a1))]),
                   CallChunk([CallFragment(None, None, Some(a2))])], clock)
         == [PendingCall(FallbackId(clock(0, 0), 0), n1 + n2, a1 + a2)]
  {
    var c1 := CallChunk([CallFragment(None, Some(n1), None)]);
    var c2 := CallChunk([CallFragment(None, Some(n2), None)]);
    var c3 := CallChunk([CallFragment(None, None, Some(a1))]);
    var c4 := CallChunk([CallFragment(None, None, Some(a2))]);
    var e: string := "";
    FourSingleChunks(c1, c2, c3, c4, clock);
    assert IdFor(Fragments(c1)[0], clock(0, 0), 0) == FallbackId(clock(0, 0), 0);
    assert NamePart(c1, 0) == n1 && NamePart(c2, 0) == n2 && NamePart(c3, 0) == e && NamePart(c4, 0) == e;
    assert ArgsPart(c1, 0) == e && ArgsPart(c2, 0) == e && ArgsPart(c3, 0) == a1 && ArgsPart(c4, 0) == a2;
    assert n1 + n2 + e + e == n1 + n2;
    assert e + e + a1 + a2 == a1 + a2;
  }

  lemma FourSingleChunks(c1: Chunk, c2: Chunk, c3: Chunk, c4: Chunk, clock: Clock)
    requires |Fragments(c1)| == |Fragments(c2)| == |Fragments(c3)| == |Fragments(c4)| == 1
    ensures Slots([c1, c2, c3, c4], clock)
         == [PendingCall(IdFor(Fragments(c1)[0], clock(0, 0), 0),
                         NamePart(c1, 0) + NamePart(c2, 0) + NamePart(c3, 0) + NamePart(c4, 0),
                         ArgsPart(c1, 0) + ArgsPart(c2, 0) + ArgsPart(c3, 0) + ArgsPart(c4, 0))]
  {
    var s := [c1, c2, c3, c4];
    assert forall k :: 0 <= k < |s| ==> |Fragments(s[k])| == 1 by {
      assert s[0] == c1 && s[1] == c2 && s[2] == c3 && s[3] == c4;
    }
    OneSlot(s, clock);
    FourNames(c1, c2, c3, c4);
  }

  /** A stream whose every `tool_calls` array has exactly one entry fills
      slot 0 only, under the first fragment's id. */
  lemma OneSlot(s: seq<Chunk>, clock: Clock)
    requires s != [] && forall k :: 0 <= k < |s| ==> |Fragments(s[k])| == 1
    ensures Slots(s, clock) == [PendingCall(IdFor(Fragments(s[0])[0], clock(0, 0), 0), SlotName(s, 0), SlotArgs(s, 0))]
  {
    MaxWidthIsMaximum(s);
    assert Width(s[0]) == 1;
    SlotIdFromFirstFragment(s, clock, 0, 0);
    var r := Slots(s, clock);
    assert |r| == 1 && r[0] == Slot(s, clock, 0);
  }

  lemma FourNames(c1: Chunk, c2: Chunk, c3: Chunk, c4: Chunk)
    ensures SlotName([c1, c2, c3, c4], 0) == NamePart(c1, 0) + NamePart(c2, 0) + NamePart(c3, 0) + NamePart(c4, 0)
    ensures SlotArgs([c1, c2, c3, c4], 0) == ArgsPart(c1, 0) + ArgsPart(c2, 0) + ArgsPart(c3, 0) + ArgsPart(c4, 0)
  {
    var s0: seq<Chunk> := [];
    var s1 := s0 + [c1];
    var s2 := s1 + [c2];
    var s3 := s2 + [c3];
    assert [c1, c2, c3, c4] == s3 + [c4];
    NameStep(s0, c1, 0); NameStep(s1, c2, 0); NameStep(s2, c3, 0); NameStep(s3, c4, 0);
    ArgsStep(s0, c1, 0); ArgsStep(s1, c2, 0); ArgsStep(s2, c3, 0); ArgsStep(s3, c4, 0);
    assert "" + NamePart(c1, 0) == NamePart(c1, 0);
    assert "" + ArgsPart(c1, 0) == ArgsPart(c1, 0);
  }

  /** Calls that share one `tool_calls` array get one slot each. */
  lemma SideBySideCallsKeepSlots(a: string, b: string, n1: string, n2: string, a1: string, a2: string, clock: Clock)
    requires a != "" && b != "" && n1 != "" && n2 != "" && a1 != "" && a2 != ""
    ensures Slots([CallChunk([CallFragment(Some(a), Some(n1), None), CallFragment(Some(b), Some(n2), None)]),
                   CallChunk([CallFragment(None, None, Some(a1)), CallFragment(None, None, Some(a2))])], clock)
         == [PendingCall(a, n1, a1), PendingCall(b, n2, a2)]
  {
    var c1 := CallChunk([CallFragment(Some(a), Some(n1), None), CallFragment(Some(b), Some(n2), None)]);
    var c2 := CallChunk([CallFragment(None, None, Some(a1)), CallFragment(None, None, Some(a2))]);
    var e: string := "";
    TwoSlots(c1, c2, clock);
    assert NamePart(c1, 0) == n1 && NamePart(c2, 0) == e && ArgsPart(c1, 0) == e && ArgsPart(c2, 0) == a1;
    assert NamePart(c1, 1) == n2 && NamePart(c2, 1) == e && ArgsPart(c1, 1) == e && ArgsPart(c2, 1) == a2;
    assert n1 + e == n1 && e + a1 == a1;
    assert n2 + e == n2 && e + a2 == a2;
  }

  /** Two chunks whose first is the wider, with two fragments. */
  lemma TwoSlots(c1: Chunk, c2: Chunk, clock: Clock)
    requires Width(c2) <= Width(c1) == 2
    ensures Slots([c1, c2], clock)
         == [PendingCall(IdFor(Fragments(c1)[0], clock(0, 0), 0), NamePart(c1, 0) + NamePart(c2, 0), ArgsPart(c1, 0) + ArgsPart(c2, 0)),
             PendingCall(IdFor(Fragments(c1)[1], clock(0, 1), 1), NamePart(c1, 1) + NamePart(c2, 1), ArgsPart(c1, 1) + ArgsPart(c2, 1))]
  {
    TwoChunksWidth(c1, c2);
    TwoChunksText(c1, c2, 0);
    TwoChunksId(c1, c2, clock, 0);
    TwoChunksText(c1, c2, 1);
    TwoChunksId(c1, c2, clock, 1);
    var r := Slots([c1, c2], clock);
    assert |r| == 2 && r[0] == Slot([c1, c2], clock, 0) && r[1] == Slot([c1, c2], clock, 1);
  }

  /** Two text deltas both reach the callback, each stripped on its own. */
  lemma TwoTextChunksEmitted(t1: string, t2: string)
    requires t1 != "" && t2 != ""
    ensures Emitted([TextChunk(t1), TextChunk(t2)]) == [StripKnowledgeTags(t1), StripKnowledgeTags(t2)]
  {
    var s0: seq<Chunk> := [];
    var s1 := s0 + [TextChunk(t1)];
    var s2 := s1 + [TextChunk(t2)];
    assert s2 == [TextChunk(t1), TextChunk(t2)];
    var e1, e2 := StripKnowledgeTags(t1), StripKnowledgeTags(t2);
    assert Echo(TextChunk(t1)) == [e1] && Echo(TextChunk(t2)) == [e2];
    EmittedStep(s0, TextChunk(t1));
    assert Emitted(s1) == [] + [e1] == [e1];
    EmittedStep(s1, TextChunk(t2));
    assert Emitted(s2) == [e1] + [e2] == [e1, e2];
  }

  /** The full text of two text deltas is their concatenation. */
  lemma TwoTextChunksText(t1: string, t2: string)
    requires t1 != "" && t2 != ""
    ensures FullText([TextChunk(t1), TextChunk(t2)]) == t1 + t2
  {
    var s0: seq<Chunk> := [];
    var s1 := s0 + [TextChunk(t1)];
    var s2 := s1 + [TextChunk(t2)];
    assert s2 == [TextChunk(t1), TextChunk(t2)];
    FullTextStep(s0, TextChunk(t1));
    FullTextStep(s1, TextChunk(t2));
  }

  /** Each delta is also trimmed on its own before it reaches the callback:
      `w1 + " "` then `w2` (say `"Hello "` then `"world"`) arrive as `w1` and
      `w2`, while the full text keeps the space. */
  lemma TrimmedDeltas(w1: string, w2: string)
    requires w1 != "" && !IsTrimmable(w1[0]) && !IsTrimmable(w1[|w1| - 1])
    requires w2 != "" && !IsTrimmable(w2[0]) && !IsTrimmable(w2[|w2| - 1])
    requires forall j :: 0 <= j < |w1| ==> w1[j] != '['
    requires forall j :: 0 <= j < |w2| ==> w2[j] != '['
    ensures Emitted([TextChunk(w1 + " "), TextChunk(w2)]) == [w1, w2]
    ensures FullText([TextChunk(w1 + " "), TextChunk(w2)]) == w1 + " " + w2
  {
    TwoTextChunksEmitted(w1 + " ", w2);
    TwoTextChunksText(w1 + " ", w2);
    TrailingSpaceStrips(w1);
    BracketFreeRemoval(w2);
    TrimUntouched(w2);
  }

  /** A word followed by a space strips to the word. */
  lemma TrailingSpaceStrips(w: string)
    requires w != "" && !IsTrimmable(w[0]) && !IsTrimmable(w[|w| - 1])
    requires forall j :: 0 <= j < |w| ==> w[j] != '['
    ensures StripKnowledgeTags(w + " ") == w
  {
    var t := w + " ";
    assert forall j :: 0 <= j < |t| ==> t[j] != '[';
    BracketFreeRemoval(t);
    assert TrimStart(t) == t;
    assert t[..|t| - 1] == w;
    assert TrimEnd(t) == TrimEnd(w);
    TrimUntouched(w);
  }

  /** Text without `[` loses nothing to marker removal. */
  lemma BracketFreeRemoval(t: string)
    requires forall j :: 0 <= j < |t| ==> t[j] != '['
    ensures RemoveTags(t) == t
  {
    assert t == t + "";
    ScanBracketFree(t, "");
    NoMarkerScan("");
  }

  /** One step of the text specification. */
  lemma FullTextStep(s: seq<Chunk>, c: Chunk)
    ensures FullText(s + [c]) == FullText(s) + TextOf(c)
  {
    assert (s + [c])[..|s|] == s;
  }

  lemma EmittedStep(s: seq<Chunk>, c: Chunk)
    ensures Emitted(s + [c]) == Emitted(s) + Echo(c)
  {
    assert (s + [c])[..|s|] == s;
  }

  /** A marker split across two text deltas reaches the chunk callback
      unstripped... */
  lemma SplitMarkerLeaks(p: string)
    requires IsPayload(p)
    requires forall j :: 0 <= j < |p| ==> p[j] != '['
    ensures Emitted([TextChunk("["), TextChunk(Open[1..] + p + "]")]) == ["[", Open[1..] + p + "]"]
  {
    var rest := Open[1..] + p + "]";
    assert rest[0] == 'A' && rest[|rest| - 1] == ']';
    assert forall j :: 0 <= j < |Open| - 1 ==> rest[j] == Open[j + 1] != '[';
    assert forall j :: 0 <= j < |p| ==> rest[|Open| - 1 + j] == p[j];
    LeakedText(rest);
  }

  lemma LeakedText(rest: string)
    requires rest != [] && rest[0] == 'A' && rest[|rest| - 1] == ']'
    requires forall j :: 0 <= j < |rest| ==> rest[j] != '['
    ensures Emitted([TextChunk("["), TextChunk(rest)]) == ["[", rest]
  {
    TwoTextChunksEmitted("[", rest);
    LoneBracketStrip();
    BracketFreeStrip(rest);
  }

  /** ...while the full text still yields its payload and strips to nothing. */
  lemma SplitMarkerRecorded(p: string)
    requires IsPayload(p)
    ensures var t := FullText([TextChunk("["), TextChunk(Open[1..] + p + "]")]);
      && t == Open + p + "]"
      && StripKnowledgeTags(t) == ""
      && Payloads(t) == [p]
  {
    SplitMarkerText(p);
    MarkerAlone(p);
  }

  lemma SplitMarkerText(p: string)
    ensures FullText([TextChunk("["), TextChunk(Open[1..] + p + "]")]) == Open + p + "]"
  {
    var rest := Open[1..] + p + "]";
    TwoTextChunksText("[", rest);
    assert Open == "[" + Open[1..];
    ConcatAssoc("[", Open[1..], p);
    ConcatAssoc("[", Open[1..] + p, "]");
  }

  lemma LoneBracketStrip()
    ensures StripKnowledgeTags("[") == "["
  {
    assert MatchAt("[").None?;
    assert "["[0..] == "[";
    StripMarkerFree("[");
    TrimUntouched("[");
  }

  /** Bracket-free text that starts with `A` and ends with `]` strips to
      itself. */
  lemma BracketFreeStrip(t: string)
    requires t != [] && t[0] == 'A' && t[|t| - 1] == ']'
    requires forall j :: 0 <= j < |t| ==> t[j] != '['
    ensures StripKnowledgeTags(t) == t
  {
    assert t == t + "";
    ScanBracketFree(t, "");
    NoMarkerScan("");
    TrimUntouched(t);
  }

  // ---------------------------------------------------------------------
  // The loop

  /** The slot at a position the chunk's `tool_calls` array reaches: the
      slot it had (or a fresh one with the fragment's id) with the chunk's
      name and argument fragments appended. */
  lemma SlotAfter(s: seq<Chunk>, c: Chunk, clock: Clock, i: nat, base: PendingCall)
    requires i < Width(c)
    requires base == if i < MaxWidth(s) then Slot(s, clock, i)
                     else PendingCall(IdFor(Fragments(c)[i], clock(|s|, i), i), "", "")
    ensures i < MaxWidth(s + [c])
    ensures Slot(s + [c], clock, i)
         == PendingCall(base.id, base.name + NamePart(c, i), base.arguments + ArgsPart(c, i))
  {
    WidthStep(s, c);
    NameStep(s, c, i);
    ArgsStep(s, c, i);
    assert (s + [c])[..|s|] == s;
    if MaxWidth(s) <= i {
      SlotTextBeyondWidth(s, i);
    }
  }

  /** The slot at a position the chunk's `tool_calls` array does not reach
      is unchanged. */
  lemma SlotUntouched(s: seq<Chunk>, c: Chunk, clock: Clock, j: nat)
    requires Width(c) <= j < MaxWidth(s)
    ensures j < MaxWidth(s + [c]) && Slot(s + [c], clock, j) == Slot(s, clock, j)
  {
    WidthStep(s, c);
    NameStep(s, c, j);
    ArgsStep(s, c, j);
    assert (s + [c])[..|s|] == s;
    assert NamePart(c, j) == "" && ArgsPart(c, j) == "";
    assert SlotName(s, j) + "" == SlotName(s, j);
    assert SlotArgs(s, j) + "" == SlotArgs(s, j);
  }

  /** The inner loop over one delta's `tool_calls` array: the fragment at
      array position `i` creates slot `i` if it does not exist yet, then its
      name and argument fragments are appended to that slot. Given the slots
      of the chunks `done` before it, it yields the slots of `done` followed
      by this chunk. */
  method MergeFragments(slots0: seq<PendingCall>, chunk: Chunk, k: nat, clock: Clock, ghost done: seq<Chunk>)
    returns (slots: seq<PendingCall>)
    requires k == |done|
    requires |slots0| == MaxWidth(done)
    requires forall j :: 0 <= j < |slots0| ==> slots0[j] == Slot(done, clock, j)
    ensures |slots| == MaxWidth(done + [chunk])
    ensures forall j :: 0 <= j < |slots| ==> slots[j] == Slot(done + [chunk], clock, j)
  {
    slots := slots0;
    ghost var next := done + [chunk];
    assert next[..|next| - 1] == done;
    if chunk.delta.Some? && chunk.delta.value.toolCalls.Some? {
      var calls := chunk.delta.value.toolCalls.value;
      for i := 0 to |calls|
        invariant |slots| == if MaxWidth(done) < i then i else MaxWidth(done)
        invariant forall j :: 0 <= j < i ==> j < MaxWidth(next) && slots[j] == Slot(next, clock, j)
        invariant forall j :: i <= j < |slots| ==> j < MaxWidth(done) && slots[j] == Slot(done, clock, j)
      {
        var f := calls[i];
        var cur: PendingCall;
        if |slots| <= i {
          cur := PendingCall(IdFor(f, clock(k, i), i), "", "");
        } else {
          cur := slots[i];
        }
        ghost var base := cur;
        SlotAfter(done, chunk, clock, i, base);
        if Truthy(f.name) {
          cur := cur.(name := cur.name + f.name.value);
        } else {
          assert cur.name == base.name + "";
        }
        if Truthy(f.arguments) {
          cur := cur.(arguments := cur.arguments + f.arguments.value);
        } else {
          assert cur.arguments == base.arguments + "";
        }
        if |slots| <= i {
          slots := slots + [cur];
        } else {
          slots := slots[i := cur];
        }
      }
    }
    forall j | Width(chunk) <= j < |slots|
      ensures j < MaxWidth(next) && slots[j] == Slot(next, clock, j)
    {
      SlotUntouched(done, chunk, clock, j);
    }
  }

  /** The `for await` loop: text accumulation, the `onChunk` side channel and
      the positional tool-call slots. */
  method Accumulate(stream: seq<Chunk>, clock: Clock)
    returns (fullContent: string, emitted: seq<string>, slots: seq<PendingCall>)
    ensures fullContent == FullText(stream)
    ensures emitted == Emitted(stream)
    ensures slots == Slots(stream, clock)
  {
    fullContent, emitted, slots := "", [], [];
    for k := 0 to |stream|
      invariant fullContent == FullText(stream[..k])
      invariant emitted == Emitted(stream[..k])
      invariant |slots| == MaxWidth(stream[..k])
      invariant forall j :: 0 <= j < |slots| ==> slots[j] == Slot(stream[..k], clock, j)
    {
      ghost var done := stream[..k];
      var chunk := stream[k];
      assert stream[..k + 1] == done + [chunk];
      FullTextStep(done, chunk);
      EmittedStep(done, chunk);
      if chunk.delta.Some? && Truthy(chunk.delta.value.content) {
        fullContent := fullContent + chunk.delta.value.content.value;
        emitted := emitted + [StripKnowledgeTags(chunk.delta.value.content.value)];
      }
      slots := MergeFragments(slots, chunk, k, clock, done);
    }
    SlotsFrom(stream[..|stream|], clock, slots);
    assert stream[..|stream|] == stream;
  }

  /** A list holding slot `j` at every position below the slot count is the
      list of slots. */
  lemma SlotsFrom(s: seq<Chunk>, clock: Clock, slots: seq<PendingCall>)
    requires |slots| == MaxWidth(s)
    requires forall j :: 0 <= j < |slots| ==> slots[j] == Slot(s, clock, j)
    ensures slots == Slots(s, clock)
  {
  }
}
