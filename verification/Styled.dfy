/** Styled display text: what the markdown renderer produces.

    A `char` stands for one byte of the source's `std::string`. The source
    stores styles as runs and merges equal neighbours, so a run list and one
    style per byte carry the same information; here every byte carries its
    style. */
module StyledText {

  datatype Style = Style(flags: nat, heading: nat)

  const PLAIN := Style(0, 0)

  datatype Cell = Cell(ch: char, style: Style)

  datatype Link = Link(start: nat, end: nat, target: string, tentative: bool)

  datatype RawStyled = RawStyled(cells: seq<Cell>, links: seq<Link>)

  /** Links are non-empty, ascending, non-overlapping and inside the text. */
  ghost predicate LinksOk(s: RawStyled) {
    && (forall i :: 0 <= i < |s.links| ==> s.links[i].start < s.links[i].end <= |s.cells|)
    && (forall i, j :: 0 <= i < j < |s.links| ==> s.links[i].end <= s.links[j].start)
  }

  type Styled = s: RawStyled | LinksOk(s) witness RawStyled([], [])

  const NOTHING: Styled := RawStyled([], [])

  function Paint(s: string, style: Style): (r: seq<Cell>)
    ensures |r| == |s|
  {
    seq(|s|, i requires 0 <= i < |s| => Cell(s[i], style))
  }

  function Plain(s: string, style: Style): Styled {
    RawStyled(Paint(s, style), [])
  }

  function ShiftLinks(links: seq<Link>, d: nat): (r: seq<Link>)
    ensures |r| == |links|
  {
    seq(|links|, i requires 0 <= i < |links| =>
      links[i].(start := links[i].start + d, end := links[i].end + d))
  }

  /** Styled::append: the other text follows, its links rebased. */
  function Join(a: Styled, b: Styled): Styled {
    RawStyled(a.cells + b.cells, a.links + ShiftLinks(b.links, |a.cells|))
  }

  lemma {:induction false} JoinAssoc(a: Styled, b: Styled, c: Styled)
    ensures Join(Join(a, b), c) == Join(a, Join(b, c))
  {
  }

  lemma {:induction false} JoinNothing(a: Styled)
    ensures Join(a, NOTHING) == a && Join(NOTHING, a) == a
  {
  }

  predicate Continuation(c: char) {
    0x80 <= c as int < 0xC0
  }

  /** A cut at `i` would fall inside a UTF-8 sequence of `s`. */
  predicate SplitsChar(s: seq<Cell>, i: nat) {
    i < |s| && Continuation(s[i].ch)
  }

  /** Styled::slice. Only the bytes matter where the source uses it: the
      caller drops the sliced links and registers its own. */
  function SliceCells(s: Styled, from: nat): seq<Cell>
    requires from <= |s.cells|
  {
    s.cells[from..]
  }

  /** common_prefix: the longest prefix on which bytes and styles agree, taken
      back to a character boundary. */
  method CommonPrefix(a: Styled, b: Styled) returns (i: nat)
    ensures i <= |a.cells| && i <= |b.cells|
    ensures a.cells[..i] == b.cells[..i]
    ensures i == 0 || (!SplitsChar(a.cells, i) && !SplitsChar(b.cells, i))
    ensures forall j :: i < j <= |a.cells| && j <= |b.cells| && a.cells[..j] == b.cells[..j] ==>
                        SplitsChar(a.cells, j) || SplitsChar(b.cells, j)
  {
    var n := if |a.cells| < |b.cells| then |a.cells| else |b.cells|;
    i := 0;
    while i < n && a.cells[i] == b.cells[i]
      invariant i <= n && a.cells[..i] == b.cells[..i]
    {
      i := i + 1;
    }
    assert forall j :: i < j <= n ==> a.cells[..j] != b.cells[..j] by {
      forall j | i < j <= n ensures a.cells[..j] != b.cells[..j] {
        assert a.cells[..j][i] != b.cells[..j][i];
      }
    }
    while i > 0 && (SplitsChar(a.cells, i) || SplitsChar(b.cells, i))
      invariant i <= n && a.cells[..i] == b.cells[..i]
      invariant forall j :: i < j <= n && a.cells[..j] == b.cells[..j] ==>
                            SplitsChar(a.cells, j) || SplitsChar(b.cells, j)
    {
      assert a.cells[..i - 1] == a.cells[..i][..i - 1];
      assert b.cells[..i - 1] == b.cells[..i][..i - 1];
      i := i - 1;
    }
  }
}
