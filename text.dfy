/** Joining a list of strings end to end, as the `+=` accumulators of `format_chat` and
    `generate` in app.py do. */
module Text {

  /** The strings of `pieces` concatenated in order. */
  function Join(pieces: seq<string>): string {
    if pieces == [] then "" else Join(pieces[..|pieces| - 1]) + pieces[|pieces| - 1]
  }

  /** Appending one more piece extends the joined string by exactly that piece. */
  lemma {:induction false} JoinSnoc(pieces: seq<string>, p: string)
    ensures Join(pieces + [p]) == Join(pieces) + p
  {
    assert (pieces + [p])[..|pieces|] == pieces;
  }

  /** Joining distributes over concatenation: order is kept and nothing is inserted
      between the two halves. */
  lemma {:induction false} JoinAppend(xs: seq<string>, ys: seq<string>)
    ensures Join(xs + ys) == Join(xs) + Join(ys)
    decreases |ys|
  {
    if ys == [] {
      assert xs + ys == xs;
    } else {
      var init, last := ys[..|ys| - 1], ys[|ys| - 1];
      assert ys == init + [last];
      assert xs + ys == (xs + init) + [last];
      JoinSnoc(xs + init, last);
      JoinSnoc(init, last);
      JoinAppend(xs, init);
    }
  }
}
