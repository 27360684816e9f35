/** The rotating quotes and their cursor. */
module Quotes {

  const Quotes: seq<string> := [
    "“Stay focused and keep shipping.”",
    "“The secret of getting ahead is getting started.”",
    "“Don’t wait. The time will never be just right.”",
    "“Believe you can and you're halfway there.”",
    "“The best way to predict the future is to create it.”",
    "“Success is the sum of small efforts, repeated daily.”"
  ]

  /** `(currentQuoteIndex + 1) % quotes.length`: the cursor after one update. */
  function Next(i: nat): (j: nat)
    requires i < |Quotes|
    ensures j < |Quotes|
    ensures j == 0 <==> i == |Quotes| - 1
  {
    (i + 1) % |Quotes|
  }

  /** The cursor after `k` updates from page load, where it starts at 0. */
  function CursorAfter(k: nat): (i: nat)
    ensures i < |Quotes|
  {
    if k == 0 then 0 else Next(CursorAfter(k - 1))
  }

  /** After `k` updates the cursor is `k mod 6`. */
  lemma {:induction false} CursorAfterIsMod(k: nat)
    ensures CursorAfter(k) == k % |Quotes|
  {
    if k > 0 {
      CursorAfterIsMod(k - 1);
    }
  }

  /** The `k`-th update (counting from 1) shows quote `(k - 1) mod 6`. */
  lemma ShownByUpdate(k: nat)
    requires k >= 1
    ensures Quotes[CursorAfter(k - 1)] == Quotes[(k - 1) % |Quotes|]
  {
    CursorAfterIsMod(k - 1);
  }
}
