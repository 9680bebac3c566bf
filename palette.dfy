/** The colours of the editor and the palette cursor that picks a new stroke
    colour for every drag. Colours are names only: their RGB values are a
    presentation detail and are not modelled. */
module Palette {

  /** The nine stroke colours of the palette, the beige used to fill handles
      and end-point markers, and `Unset`, the default colour value the stroke
      colour holds before the first press. */
  datatype Colour =
    | Crimson | BlueViolet | LightSeaGreen | DeepPink | DimGray
    | YellowGreen | Blue | DarkRed | DarkGreen
    | Beige
    | Unset

  /** The palette, in the order the cursor walks it. */
  const Colours: seq<Colour> :=
    [Crimson, BlueViolet, LightSeaGreen, DeepPink, DimGray,
     YellowGreen, Blue, DarkRed, DarkGreen]

  /** The cursor before any press: no palette entry is selected yet. */
  const InitialIndex := -1

  /** The remainder of C#'s `%` operator on integers: it truncates the
      quotient toward zero, so the remainder takes the sign of the dividend
      (Dafny's own `%` is Euclidean and never negative). */
  function CsRemainder(a: int, n: int): (r: int)
    requires n > 0
    ensures (a - r) % n == 0
    ensures a >= 0 ==> 0 <= r < n
    ensures a < 0 ==> -n < r <= 0
  {
    if a >= 0 then
      MultipleRemainder(a / n, n);
      a % n
    else
      MultipleRemainder(-((-a) / n), n);
      -((-a) % n)
  }

  /** The remainder of a negated dividend is the negated remainder: C#'s `%`
      is odd in its dividend, unlike Dafny's. */
  lemma CsRemainderNegate(a: int, n: int)
    requires n > 0
    ensures CsRemainder(-a, n) == -CsRemainder(a, n)
  {
  }

  /** A non-zero multiple of a positive `n` is at least `n` away from zero. */
  lemma MultipleAwayFromZero(k: int, n: int)
    requires n > 0
    ensures k >= 1 ==> k * n >= n
    ensures k <= -1 ==> k * n <= -n
  {
    if k >= 1 {
      assert k * n == n + (k - 1) * n;
    } else if k <= -1 {
      assert k * n == -n + (k + 1) * n;
    }
  }

  /** Every multiple of `n` leaves remainder zero. */
  lemma MultipleRemainder(q: int, n: int)
    requires n > 0
    ensures (q * n) % n == 0
  {
    var x := q * n;
    assert (q - x / n) * n == x % n;
    MultipleAwayFromZero(q - x / n, n);
  }

  /** The cursor a press selects: `(index + 1) % 9` in C#. From any cursor
      the cursor can hold it advances by one and wraps from the last entry
      back to the first. */
  function NextColourIndex(index: int): (next: int)
    ensures InitialIndex <= index < |Colours| - 1 ==> next == index + 1
    ensures index == |Colours| - 1 ==> next == 0
    ensures index >= InitialIndex ==> 0 <= next < |Colours|
  {
    CsRemainder(index + 1, |Colours|)
  }

  /** The cursor after `presses` presses, starting from the initial cursor. */
  function IndexAfterPresses(presses: nat): (index: int)
  {
    if presses == 0 then InitialIndex else NextColourIndex(IndexAfterPresses(presses - 1))
  }

  /** The n-th press (counting from one) selects palette entry (n - 1) mod 9:
      the first press selects the first entry and the colours cycle with
      period nine. */
  lemma {:induction false} PressCycle(presses: nat)
    ensures presses == 0 ==> IndexAfterPresses(presses) == InitialIndex
    ensures presses > 0 ==> IndexAfterPresses(presses) == (presses - 1) % |Colours|
  {
    if presses > 1 {
      PressCycle(presses - 1);
      var prev := (presses - 2) % |Colours|;
      assert IndexAfterPresses(presses) == NextColourIndex(prev);
      if prev == |Colours| - 1 {
        assert (presses - 1) % |Colours| == 0;
      } else {
        assert (presses - 1) % |Colours| == prev + 1;
      }
    }
  }

  /** After at least one press the cursor is a valid palette index, and the
      cursor is periodic: nine more presses come back to the same entry. */
  lemma {:induction false} PressCyclePeriod(presses: nat)
    requires presses > 0
    ensures 0 <= IndexAfterPresses(presses) < |Colours|
    ensures IndexAfterPresses(presses + |Colours|) == IndexAfterPresses(presses)
  {
    PressCycle(presses);
    PressCycle(presses + |Colours|);
    var k := presses - 1;
    assert |Colours| == 9;
    assert (k + 9) % 9 == k % 9;
  }

  /** Ten presses give the colours of the first nine palette entries in
      order and then the first one again. */
  lemma TenPresses()
    ensures forall n :: 1 <= n <= 9 ==> IndexAfterPresses(n) == n - 1
    ensures IndexAfterPresses(10) == 0 && Colours[IndexAfterPresses(10)] == Crimson
  {
    forall n | 1 <= n <= 9
      ensures IndexAfterPresses(n) == n - 1
    {
      PressCycle(n);
    }
    PressCycle(10);
  }
}
