/** The page layout of the exported PDF report: each assessment is an entry
    of seven lines, 10 units apart, starting at a vertical offset that
    moves down 80 units per entry and returns to the top of a fresh page
    once it passes 250. Only the offsets are modelled, not the drawing. */
module Report {

  const TitleOffset: int := 20
  const FirstOffset: int := 40
  const EntryHeight: int := 80
  const PageBottom: int := 250
  const TopMargin: int := 20
  /** Offset of an entry's last line (the residual risk) below its first. */
  const LastLineOffset: int := 60
  /** Height of the report's page: an A4 sheet in millimetres, the PDF
      library's default page. */
  const PageHeight: int := 297

  datatype Step = Step(next: int, newPage: bool)

  /** The offset after drawing one entry at `y`, and whether a page was added. */
  function Advance(y: int): (s: Step)
    ensures s.next <= PageBottom
    ensures s.newPage <==> y + EntryHeight > PageBottom
    ensures s.newPage ==> s.next == TopMargin
    ensures !s.newPage ==> s.next == y + EntryHeight
  {
    if y + EntryHeight > PageBottom then Step(TopMargin, true) else Step(y + EntryHeight, false)
  }

  /** Where the `i`-th entry starts: three entries on the first page (after
      the title), three on every later page. */
  function StartOffset(i: nat): int {
    if i < 3 then FirstOffset + EntryHeight * i else TopMargin + EntryHeight * ((i - 3) % 3)
  }

  lemma AdvanceFromStart(k: nat)
    ensures Advance(StartOffset(k)) == Step(StartOffset(k + 1), k % 3 == 2)
    ensures (k + 1) / 3 == k / 3 + (if k % 3 == 2 then 1 else 0)
  {
    if k >= 3 {
      assert (k + 1 - 3) % 3 == (if (k - 3) % 3 == 2 then 0 else (k - 3) % 3 + 1);
      assert (k - 3) % 3 == k % 3;
    }
  }

  /** The offsets of the report's entries, in order, and the number of pages
      added after the first, for `count` assessments. */
  method Layout(count: nat) returns (starts: seq<int>, pagesAdded: nat)
    ensures |starts| == count
    ensures forall i :: 0 <= i < count ==> starts[i] == StartOffset(i)
    ensures forall i :: 0 <= i < count ==> TopMargin <= starts[i] <= PageBottom
    ensures forall i :: 0 <= i < count ==> starts[i] + LastLineOffset <= PageHeight
    ensures forall i :: 0 <= i < count && i < 3 ==> TitleOffset < starts[i]
    ensures pagesAdded == count / 3
  {
    var y := FirstOffset;
    starts := [];
    pagesAdded := 0;
    var k := 0;
    while k < count
      invariant 0 <= k <= count
      invariant |starts| == k
      invariant forall i :: 0 <= i < k ==> starts[i] == StartOffset(i)
      invariant y == StartOffset(k)
      invariant pagesAdded == k / 3
    {
      starts := starts + [y];
      AdvanceFromStart(k);
      var step := Advance(y);
      y := step.next;
      if step.newPage {
        pagesAdded := pagesAdded + 1;
      }
      k := k + 1;
    }
  }
}
