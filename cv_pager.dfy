// The CV viewer's page flipping: a click schedules a move by one page after the
// flip animation and is ignored while a flip is pending or at the first or last
// page. `FlipEnds` is the animation timer firing.
module CvPager {
  import opened Wrappers

  function Max(a: int, b: int): int { if a >= b then a else b }

  class Pager {
    const totalPages: nat
    var currentPage: int
    var isFlipping: bool
    var pending: Option<int>

    /** The page stays within bounds, and a flip is pending exactly while the
        flag is set, towards a neighbouring page that is also within bounds. */
    predicate Valid()
      reads this
    {
      1 <= currentPage <= Max(1, totalPages)
      && (isFlipping <==> pending.Some?)
      && (pending.Some? ==> 1 <= pending.value <= Max(1, totalPages)
                            && (pending.value == currentPage + 1 || pending.value == currentPage - 1))
    }

    constructor (totalPages: nat)
      ensures Valid()
      ensures this.totalPages == totalPages && currentPage == 1 && !isFlipping
    {
      this.totalPages := totalPages;
      currentPage := 1;
      isFlipping := false;
      pending := None;
    }

    method Next()
      requires Valid()
      modifies this
      ensures Valid()
      ensures currentPage == old(currentPage)
      ensures old(isFlipping) || old(currentPage) >= totalPages ==>
        isFlipping == old(isFlipping) && pending == old(pending)
      ensures !old(isFlipping) && old(currentPage) < totalPages ==>
        isFlipping && pending == Some(old(currentPage) + 1)
    {
      if isFlipping || currentPage >= totalPages {
        return;
      }
      isFlipping := true;
      pending := Some(currentPage + 1);
    }

    method Previous()
      requires Valid()
      modifies this
      ensures Valid()
      ensures currentPage == old(currentPage)
      ensures old(isFlipping) || old(currentPage) <= 1 ==>
        isFlipping == old(isFlipping) && pending == old(pending)
      ensures !old(isFlipping) && old(currentPage) > 1 ==>
        isFlipping && pending == Some(old(currentPage) - 1)
    {
      if isFlipping || currentPage <= 1 {
        return;
      }
      isFlipping := true;
      pending := Some(currentPage - 1);
    }

    /** The animation delay is over: the page moves by exactly one. */
    method FlipEnds()
      requires Valid() && isFlipping
      modifies this
      ensures Valid()
      ensures !isFlipping && currentPage == old(pending).value
      ensures currentPage == old(currentPage) + 1 || currentPage == old(currentPage) - 1
    {
      currentPage := pending.value;
      isFlipping := false;
      pending := None;
    }
  }

  /** Clicks during a flip are ignored: two quick "next" clicks on a three-page
      CV advance one page only, and "previous" on the first page does nothing. */
  method DoubleClickMovesOnce() returns (afterDouble: int, afterBack: int, flipping: bool)
    ensures afterDouble == 2 && afterBack == 1 && !flipping
  {
    var p := new Pager(3);
    p.Next();
    p.Next();
    p.FlipEnds();
    afterDouble := p.currentPage;
    p.Previous();
    p.FlipEnds();
    p.Previous();
    afterBack := p.currentPage;
    flipping := p.isFlipping;
  }
}
