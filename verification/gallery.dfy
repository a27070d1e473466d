/**
 * The property page's image viewer (components/property-gallery.tsx): one
 * selected position, moved by the arrows with wrap-around and set by the
 * thumbnails.
 */
module Gallery {

  /** The "previous" updater: from the first image to the last, otherwise one back. */
  function Prev(i: int, n: int): (r: int)
    ensures 0 <= i < n ==> 0 <= r < n && r == (i - 1 + n) % n
  {
    if i == 0 then
      assert 0 < n ==> (i - 1 + n) % n == n - 1;
      n - 1
    else
      assert 0 <= i < n ==> (i - 1 + n) % n == i - 1;
      i - 1
  }

  /** The "next" updater: from the last image to the first, otherwise one on. */
  function Next(i: int, n: int): (r: int)
    ensures 0 <= i < n ==> 0 <= r < n && r == (i + 1) % n
  {
    if i == n - 1 then
      assert 0 < n ==> (i + 1) % n == 0;
      0
    else
      assert 0 <= i < n ==> (i + 1) % n == i + 1;
      i + 1
  }

  /** The arrows undo each other. */
  lemma ArrowsAreInverse(i: int, n: int)
    requires 0 <= i < n
    ensures Next(Prev(i, n), n) == i && Prev(Next(i, n), n) == i
  {
  }

  /** Pressing "next" `k` times from the start of an `n`-image list reaches position `k`, and after `n` presses the start again. */
  lemma {:induction false} FullTurn(n: int, k: nat)
    requires 0 < n && k <= n
    ensures NextTimes(0, n, k) == if k == n then 0 else k
    decreases k
  {
    if k > 0 {
      FullTurn(n, k - 1);
    }
  }

  /** The position after pressing "next" `k` times from `i`. */
  function NextTimes(i: int, n: int, k: nat): int
    decreases k
  {
    if k == 0 then i else Next(NextTimes(i, n, k - 1), n)
  }

  /** The viewer: the images it was given and the selected position. */
  class Viewer {
    const images: seq<string>
    var selectedIndex: int

    /** The position shows an image whenever there is one. */
    ghost predicate Valid()
      reads this
    {
      |images| == 0 || 0 <= selectedIndex < |images|
    }

    /** The counter in the corner, `selectedIndex + 1`. */
    function Counter(): (r: int)
      reads this
      requires Valid() && |images| > 0
      ensures 1 <= r <= |images|
    {
      selectedIndex + 1
    }

    constructor(images: seq<string>)
      ensures this.images == images && selectedIndex == 0
      ensures Valid()
    {
      this.images := images;
      selectedIndex := 0;
    }

    /** The left arrow. */
    method ShowPrevious()
      requires Valid()
      modifies this
      ensures selectedIndex == Prev(old(selectedIndex), |images|)
      ensures |images| > 0 ==> Valid()
    {
      if |images| > 0 {
      }
      selectedIndex := Prev(selectedIndex, |images|);
    }

    /** The right arrow. */
    method ShowNext()
      requires Valid()
      modifies this
      ensures selectedIndex == Next(old(selectedIndex), |images|)
      ensures |images| > 0 ==> Valid()
    {
      if |images| > 0 {
      }
      selectedIndex := Next(selectedIndex, |images|);
    }

    /** A thumbnail's click selects its own position. */
    method Select(i: int)
      requires 0 <= i < |images|
      modifies this
      ensures selectedIndex == i && Valid()
    {
      selectedIndex := i;
    }
  }
}
