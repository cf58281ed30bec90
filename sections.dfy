/** The section-order check and the implicit zero-start section, which the
    current and the older track builder both perform before computing
    frames. */
module Sections {
  import opened MathModel
  import opened TrackComponents

  /** What the order check reports. `Crashed` is a property read of a missing
      array element (`undefined.start`), which throws. */
  datatype OrderVerdict = Crashed | SectionsNotInOrder | LastSectionNotInOrder | InOrder

  function Starts(sections: seq<Section>): (r: seq<int>)
    ensures |r| == |sections| && forall i :: 0 <= i < |r| ==> r[i] == sections[i].start
  {
    seq(|sections|, i requires 0 <= i < |sections| => sections[i].start)
  }

  /** A final start of 0 marks a closed loop; that last pair is not checked. */
  function LoopedNum(starts: seq<int>): int
    requires |starts| > 0
  {
    if starts[|starts| - 1] == 0 then 1 else 0
  }

  /** Every adjacent pair before the loop-closing one is non-decreasing. */
  predicate PairsInOrder(starts: seq<int>)
    requires |starts| > 0
  {
    forall j :: 1 <= j < |starts| - LoopedNum(starts) ==> starts[j - 1] <= starts[j]
  }

  /** The check of both builders: the pair loop, then the separate test of the
      last pair, which reads `starts[length - 2]` and so throws for a single
      section with a positive start. The separate last-pair test never fires:
      the loop has already covered that pair whenever it could. */
  method CheckSectionOrder(starts: seq<int>) returns (v: OrderVerdict)
    ensures v == Crashed <==> |starts| == 0 || (|starts| == 1 && starts[0] > 0)
    ensures v == SectionsNotInOrder <==> |starts| > 0 && !PairsInOrder(starts)
    ensures v == InOrder <==> |starts| > 0 && PairsInOrder(starts) && !(|starts| == 1 && starts[0] > 0)
    ensures v != LastSectionNotInOrder
  {
    if |starts| == 0 {
      return Crashed;
    }
    var n := |starts|;
    var loopedNum := if starts[n - 1] == 0 then 1 else 0;
    var i := 1;
    while i < n - loopedNum
      invariant 1 <= i
      invariant i <= n - loopedNum || i == 1
      invariant forall j :: 1 <= j < i ==> starts[j - 1] <= starts[j]
    {
      if starts[i - 1] > starts[i] {
        return SectionsNotInOrder;
      }
      i := i + 1;
    }
    if starts[n - 1] > 0 {
      if n < 2 {
        return Crashed;
      }
      if starts[n - 2] > starts[n - 1] {
        return LastSectionNotInOrder;
      }
    }
    return InOrder;
  }

  /** A start of 0 after a positive start is accepted only as the last one. */
  lemma LoopClosingExemption(starts: seq<int>)
    requires |starts| >= 2 && starts[|starts| - 1] == 0
    requires forall j :: 1 <= j < |starts| - 1 ==> starts[j - 1] <= starts[j]
    ensures PairsInOrder(starts)
  {
  }

  /** Starts [0, 50, 30] are rejected: 50 is followed by 30. */
  lemma OutOfOrderExample()
    ensures !PairsInOrder([0, 50, 30])
  {
    var s := [0, 50, 30];
    assert LoopedNum(s) == 0;
    assert s[1] > s[2];
  }

  const StartSection := NewSection(0, None)

  /** The list after the zero-start section is prepended when needed. */
  function Prepended(sections: seq<Section>): (r: seq<Section>)
    requires |sections| > 0
    ensures |r| > 0 && r[0].start <= 0
    ensures r[1..] == sections || r == sections
  {
    if sections[0].start > 0 then [StartSection] + sections else sections
  }

  /** `if (sections[0].start > 0) sections.unshift(new Section(0))`. */
  method PrependStartSection(sections: SectionList)
    requires |sections.items| > 0
    modifies sections
    ensures sections.items == Prepended(old(sections.items))
    ensures |sections.items| == |old(sections.items)| + (if old(sections.items[0].start) > 0 then 1 else 0)
  {
    if sections.items[0].start > 0 {
      sections.Unshift(StartSection);
    }
  }
}
