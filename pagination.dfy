/**
 * SimplePagination: the Count / CountPerPage / Current / PageCount
 * dependency properties, their coercions and the cascade of change
 * callbacks, and the Prev / Next commands.
 *
 * Each setter follows the framework's rule for dependency properties: the
 * assigned value is first coerced, and the change callback runs only when
 * the coerced value differs from the current one.
 */
module Pagination {

  /** C#'s 32-bit `int`. */
  newtype int32 = x: int | -0x8000_0000 <= x < 0x8000_0000

  const IntMax: int32 := 0x7fff_ffff
  const IntMin: int32 := -0x8000_0000

  /** The Tag under which a PageCount change moves Current. */
  const MainWindowTag: string := "MainWindow"

  /** Default values from the property metadata. */
  const DefaultCount: int32 := 0
  const DefaultCountPerPage: int32 := 50
  const DefaultCurrent: int32 := 1
  const DefaultPageCount: int32 := 1

  function Max(a: int, b: int): int { if a < b then b else a }

  /**
   * (int)Math.Ceiling(count * 1.0 / perPage): the number of pages of
   * perPage items needed for count items. The result is the least r with
   * r * perPage >= count, and never exceeds count, so the cast to int is exact.
   */
  function PagesFor(count: int32, perPage: int32): (r: int32)
    requires count >= 0 && perPage >= 1
    ensures 0 <= r <= count
    ensures (r as int - 1) * perPage as int < count as int <= r as int * perPage as int
  {
    var c, p := count as int, perPage as int;
    var q := (c + p - 1) / p;
    var m := (c + p - 1) % p;
    assert c + p - 1 == q * p + m && 0 <= m < p;
    assert (q - 1) * p == q * p - p;
    assert q >= 1 ==> (q - 1) * p >= q - 1 by {
      if q >= 1 {
        var a: nat := q - 1;
        assert a * p >= a * 1;
      }
    }
    q as int32
  }

  /** The lower bounds the coercion callbacks enforce. */
  const MinCount: int32 := 0
  const MinCountPerPage: int32 := 1
  const MinCurrent: int32 := 1

  /**
   * `Math.Max(value, floor)`, the shape of CoerceCount, CoerceCountPerPage
   * and CoerceCurrent: the value is kept when it reaches the floor and
   * replaced by the floor otherwise.
   */
  function CoerceAtLeast(value: int32, floor: int32): (r: int32)
    ensures r >= floor && r >= value
    ensures value >= floor ==> r == value
    ensures value < floor ==> r == floor
  {
    if value < floor then floor else value
  }

  /** `Current++` on a 32-bit int: int.MaxValue wraps to int.MinValue. */
  function Increment(x: int32): (r: int32)
    ensures x < IntMax ==> r as int == x as int + 1
    ensures x == IntMax ==> r == IntMin
  {
    if x == IntMax then IntMin else x + 1
  }

  class SimplePagination {
    var count: int32
    var countPerPage: int32
    var current: int32
    var pageCount: int32
    /** `$"{Tag}"`: the Tag formatted as a string ("" when it is null). */
    var tag: string

    /** What the coercions keep true, whatever is assigned. */
    ghost predicate Valid()
      reads this
    {
      count >= 0 && countPerPage >= 1 && current >= 1 && pageCount >= 0
    }

    /** PageCount agrees with Count and CountPerPage. */
    ghost predicate Consistent()
      reads this
      requires Valid()
    {
      pageCount == PagesFor(count, countPerPage)
    }

    /**
     * A fresh control holds the metadata defaults. PageCount's default 1
     * does not agree with Count's default 0 until Init runs.
     */
    constructor ()
      ensures Valid() && !Consistent()
      ensures count == DefaultCount && countPerPage == DefaultCountPerPage
      ensures current == DefaultCurrent && pageCount == DefaultPageCount && tag == ""
    {
      count, countPerPage, current, pageCount := DefaultCount, DefaultCountPerPage, DefaultCurrent, DefaultPageCount;
      tag := "";
    }

    /** Assigns Tag, which has no callback. */
    method SetTag(t: string)
      modifies this`tag
      ensures tag == t
    {
      tag := t;
    }

    /**
     * The Current setter, also used by the jump-page box: only the lower
     * bound 1 is enforced, so Current may exceed PageCount. Its change
     * callback has no effect.
     */
    method SetCurrent(value: int32)
      requires Valid()
      modifies this`current
      ensures Valid()
      ensures current == CoerceAtLeast(value, MinCurrent)
    {
      var coerced := CoerceAtLeast(value, MinCurrent);
      if coerced != current {
        current := coerced;
      }
    }

    /**
     * OnPageCountPropertyChanged: under the "MainWindow" tag Current is moved
     * to the new page count (at least 1), whether the count went down or up;
     * under any other tag Current is left alone.
     */
    method OnPageCountChanged(newPageCount: int32)
      requires Valid()
      modifies this`current
      ensures Valid()
      ensures tag == MainWindowTag ==> current as int == Max(newPageCount as int, 1)
      ensures tag != MainWindowTag ==> current == old(current)
    {
      if tag == MainWindowTag {
        if current > newPageCount {
          SetCurrent(newPageCount);
        }
        if current < newPageCount {
          SetCurrent(newPageCount);
        }
      }
    }

    /** SetValue(PageCountPropertyKey, value), with its change callback. */
    method SetPageCount(value: int32)
      requires Valid() && value >= 0
      modifies this`pageCount, this`current
      ensures Valid() && pageCount == value
      ensures value != old(pageCount) && tag == MainWindowTag ==> current as int == Max(value as int, 1)
      ensures value == old(pageCount) || tag != MainWindowTag ==> current == old(current)
    {
      if value != pageCount {
        pageCount := value;
        OnPageCountChanged(value);
      }
    }

    /**
     * The Count setter: a negative value is coerced to 0; when Count changes,
     * PageCount is recomputed, which may move Current under the "MainWindow" tag.
     */
    method SetCount(value: int32)
      requires Valid()
      modifies this`count, this`pageCount, this`current
      ensures Valid()
      ensures count == CoerceAtLeast(value, MinCount) && countPerPage == old(countPerPage)
      ensures count != old(count) ==> Consistent()
      ensures count != old(count) && pageCount != old(pageCount) && tag == MainWindowTag ==>
                current as int == Max(pageCount as int, 1)
      ensures count == old(count) || pageCount == old(pageCount) || tag != MainWindowTag ==>
                current == old(current)
      ensures count == old(count) ==> pageCount == old(pageCount)
    {
      var coerced := CoerceAtLeast(value, MinCount);
      if coerced != count {
        count := coerced;
        SetPageCount(PagesFor(coerced, countPerPage));
      }
    }

    /**
     * The CountPerPage setter: a value below 1 is coerced to 1; when
     * CountPerPage changes, PageCount is recomputed and then Current is reset
     * to 1, which overrides any move made by the PageCount callback.
     */
    method SetCountPerPage(value: int32)
      requires Valid()
      modifies this`countPerPage, this`pageCount, this`current
      ensures Valid()
      ensures countPerPage == CoerceAtLeast(value, MinCountPerPage) && count == old(count)
      ensures countPerPage != old(countPerPage) ==> Consistent() && current == 1
      ensures countPerPage == old(countPerPage) ==> pageCount == old(pageCount) && current == old(current)
    {
      var coerced := CoerceAtLeast(value, MinCountPerPage);
      if coerced != countPerPage {
        countPerPage := coerced;
        SetPageCount(PagesFor(count, coerced));
        if current != 1 {
          SetCurrent(1);
        }
      }
    }

    /** Init, run from OnApplyTemplate: PageCount is brought in line with Count and CountPerPage. */
    method Init()
      requires Valid()
      modifies this`pageCount, this`current
      ensures Valid() && Consistent()
      ensures pageCount != old(pageCount) && tag == MainWindowTag ==> current as int == Max(pageCount as int, 1)
      ensures pageCount == old(pageCount) || tag != MainWindowTag ==> current == old(current)
    {
      SetPageCount(PagesFor(count, countPerPage));
    }

    /** OnCanPrevCommand: Prev is enabled exactly when there is a page before the current one. */
    method CanPrev() returns (canExecute: bool)
      requires Valid()
      ensures canExecute <==> current > 1
      ensures !canExecute ==> current == 1
    {
      canExecute := current > 1;
    }

    /** OnCanNextCommand: Next is enabled exactly when Current is below PageCount; never with 0 or 1 pages. */
    method CanNext() returns (canExecute: bool)
      requires Valid()
      ensures canExecute <==> current < pageCount
      ensures pageCount <= 1 ==> !canExecute
    {
      canExecute := current < pageCount;
    }

    /** OnPrevCommand: `Current--`; from page 1 the coercion keeps Current at 1. */
    method OnPrevCommand()
      requires Valid()
      modifies this`current
      ensures Valid()
      ensures old(current) > 1 ==> current as int == old(current) as int - 1
      ensures old(current) == 1 ==> current == 1
    {
      SetCurrent(current - 1);
    }

    /**
     * OnNextCommand: `Current++`, with no upper clamp. While Next is enabled
     * it moves exactly one page forward and stays within PageCount; at
     * int.MaxValue the increment wraps and the coercion lands on page 1.
     */
    method OnNextCommand()
      requires Valid()
      modifies this`current
      ensures Valid()
      ensures old(current) < IntMax ==> current as int == old(current) as int + 1
      ensures old(current) < old(pageCount) ==> current <= pageCount
      ensures old(current) == IntMax ==> current == 1
    {
      SetCurrent(Increment(current));
    }
  }
}
