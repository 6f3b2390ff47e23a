/**
 * An output stream that text is written to line by line: the
 * `std::ostringstream` the window front end builds its report in, and the
 * standard output the console front end prints to.
 */
module Streams {
  import opened Text

  class TextStream {
    /** The lines written so far, in order, each without its line ending. */
    var lines: seq<string>
    /** The line ending: "\r\n" for the window, "\n" for the console. */
    const eol: string

    constructor (eol: string)
      ensures lines == [] && this.eol == eol
    {
      lines := [];
      this.eol := eol;
    }

    /** Everything written so far: `oss.str()`, or what the console shows. */
    function Str(): string
      reads this
    {
      Render(lines, eol)
    }

    /** Writes `line` and the line ending. */
    method WriteLine(line: string)
      modifies this
      ensures lines == old(lines) + [line]
    {
      lines := lines + [line];
    }
  }

  /** Writing a line adds exactly that line and the line ending to the text. */
  lemma WriteLineText(lines: seq<string>, line: string, eol: string)
    ensures Render(lines + [line], eol) == Render(lines, eol) + line + eol
  {
    RenderAppend(lines, [line], eol);
    assert Render([line], eol) == line + eol + Render([], eol);
  }

  /** Two lines written one at a time after `pre` are the block of both. */
  lemma TwoLines(pre: seq<string>, a: string, b: string)
    ensures pre + [a] + [b] == pre + [a, b]
  {
  }

  /** Three lines written one at a time after `pre` are the block of all three. */
  lemma ThreeLines(pre: seq<string>, a: string, b: string, c: string)
    ensures pre + [a] + [b] + [c] == pre + [a, b, c]
  {
  }

  /** Twelve lines written one at a time after `pre` are a block of two, then a block of ten. */
  lemma TwelveLines(pre: seq<string>, h0: string, h1: string,
                    l0: string, l1: string, l2: string, l3: string, l4: string,
                    l5: string, l6: string, l7: string, l8: string, l9: string)
    ensures pre + [h0] + [h1] + [l0] + [l1] + [l2] + [l3] + [l4] + [l5] + [l6] + [l7] + [l8] + [l9]
      == pre + [h0, h1] + [l0, l1, l2, l3, l4, l5, l6, l7, l8, l9]
  {
  }

  /** The line `line(x)` of every item `x`, in order. */
  function Each<T>(xs: seq<T>, line: T -> string): (ls: seq<string>)
    ensures |ls| == |xs|
    ensures forall i :: 0 <= i < |xs| ==> ls[i] == line(xs[i])
  {
    seq(|xs|, i requires 0 <= i < |xs| => line(xs[i]))
  }

  /** `pre`, then the line of every item of `xs`, written one at a time. */
  function AfterEach<T>(pre: seq<string>, xs: seq<T>, line: T -> string): seq<string>
    decreases |xs|
  {
    if xs == [] then pre else AfterEach(pre, xs[..|xs| - 1], line) + [line(xs[|xs| - 1])]
  }

  /** Writing the line of one more item extends the lines written so far by that line. */
  lemma AfterEachSnoc<T>(pre: seq<string>, xs: seq<T>, x: T, line: T -> string)
    ensures AfterEach(pre, xs + [x], line) == AfterEach(pre, xs, line) + [line(x)]
  {
    assert (xs + [x])[..|xs|] == xs;
  }

  /** Lines written one item at a time are the items' lines, in order, after `pre`. */
  lemma {:induction false} AfterEachInOrder<T>(pre: seq<string>, xs: seq<T>, line: T -> string)
    ensures AfterEach(pre, xs, line) == pre + Each(xs, line)
    decreases |xs|
  {
    if xs != [] {
      var n := |xs| - 1;
      AfterEachInOrder(pre, xs[..n], line);
      assert Each(xs, line) == Each(xs[..n], line) + [line(xs[n])];
    }
  }
}
