/** Offset/limit pagination. */
module Pagination {
  const MAX_PAGE_SIZE := 100

  function Clamp(n: int, lo: int, hi: int): int {
    if n < lo then lo else if n > hi then hi else n
  }

  /** Page number and size after `__post_init__`. */
  datatype PageParams = PageParams(page: int, pageSize: int) {
    function Offset(): int { (page - 1) * pageSize }
    function Limit(): int { pageSize }
  }

  function MakeParams(page: int, pageSize: int): (r: PageParams)
    ensures r.page >= 1 && 1 <= r.Limit() <= MAX_PAGE_SIZE && r.Offset() >= 0
    ensures r.page == if page >= 1 then page else 1
    ensures r.Limit() == r.pageSize && r.Offset() == (r.page - 1) * r.pageSize
    ensures 1 <= pageSize <= 100 ==> r.pageSize == pageSize
    ensures pageSize < 1 ==> r.pageSize == 1
    ensures pageSize > 100 ==> r.pageSize == 100
  {
    var p := if page < 1 then 1 else page;
    PageParams(p, if pageSize < 1 || pageSize > MAX_PAGE_SIZE then Clamp(pageSize, 1, MAX_PAGE_SIZE) else pageSize)
  }

  function TotalPages(total: nat, pageSize: nat): nat {
    if pageSize == 0 then 0 else (total + pageSize - 1) / pageSize
  }

  function Least(a: int, b: int): int {
    if a <= b then a else b
  }

  /** LIMIT and OFFSET over a list in its fixed order. */
  function Fetch<T>(rows: seq<T>, offset: nat, limit: nat): seq<T> {
    if offset >= |rows| then [] else rows[offset..Least(offset + limit, |rows|)]
  }

  function PageOf<T>(rows: seq<T>, page: nat, pageSize: nat): seq<T>
    requires page >= 1
  {
    Fetch(rows, (page - 1) * pageSize, pageSize)
  }

  ghost function FirstPages<T>(rows: seq<T>, n: nat, pageSize: nat): seq<T> {
    if n == 0 then [] else FirstPages(rows, n - 1, pageSize) + PageOf(rows, n, pageSize)
  }

  lemma {:induction false} FirstPagesArePrefix<T>(rows: seq<T>, n: nat, pageSize: nat)
    ensures FirstPages(rows, n, pageSize) == rows[..Least(n * pageSize, |rows|)]
  {
    if n > 0 {
      FirstPagesArePrefix(rows, n - 1, pageSize);
      assert n * pageSize == (n - 1) * pageSize + pageSize;
    }
  }

  lemma PagesCover(total: nat, pageSize: nat)
    requires pageSize > 0
    ensures total <= TotalPages(total, pageSize) * pageSize < total + pageSize
  {
    var n := TotalPages(total, pageSize);
    assert total + pageSize - 1 == n * pageSize + (total + pageSize - 1) % pageSize;
  }

  /** Pages 1..total_pages, put one after another, are the whole list in order. */
  lemma PagesConcatenate<T>(rows: seq<T>, pageSize: nat)
    requires pageSize > 0
    ensures FirstPages(rows, TotalPages(|rows|, pageSize), pageSize) == rows
  {
    PagesCover(|rows|, pageSize);
    FirstPagesArePrefix(rows, TotalPages(|rows|, pageSize), pageSize);
  }

  lemma TimesMonotone(a: nat, b: nat, width: nat)
    requires a <= b
    ensures a * width <= b * width
  {
  }

  /** A page is empty exactly when it lies after the last one. */
  lemma LaterPagesEmpty<T>(rows: seq<T>, page: nat, pageSize: nat)
    requires page >= 1 && pageSize > 0
    ensures PageOf(rows, page, pageSize) == [] <==> page > TotalPages(|rows|, pageSize)
  {
    var n := TotalPages(|rows|, pageSize);
    PagesCover(|rows|, pageSize);
    hide TotalPages;
    if page > n {
      TimesMonotone(n, page - 1, pageSize);
    } else {
      TimesMonotone(page, n, pageSize);
      assert page * pageSize == (page - 1) * pageSize + pageSize;
    }
  }

  /** The page shows the list's item i at the place its offset gives it. */
  ghost predicate Shows<T>(rows: seq<T>, page: nat, pageSize: nat, i: nat)
    requires page >= 1 && i < |rows|
  {
    var place := i - (page - 1) * pageSize;
    0 <= place < |PageOf(rows, page, pageSize)| && PageOf(rows, page, pageSize)[place] == rows[i]
  }

  lemma PageIsSlice<T>(rows: seq<T>, page: nat, pageSize: nat, i: nat)
    requires page >= 1 && i < |rows|
    ensures Shows(rows, page, pageSize, i) <==> (page - 1) * pageSize <= i < (page - 1) * pageSize + pageSize
  {
  }

  /** Every item is on exactly one of the pages 1..total_pages, at its place. */
  lemma ItemOnOnePage<T>(rows: seq<T>, i: nat, pageSize: nat)
    requires i < |rows| && pageSize > 0
    ensures 1 <= i / pageSize + 1 <= TotalPages(|rows|, pageSize)
    ensures forall page: nat | page >= 1 :: Shows(rows, page, pageSize, i) <==> page == i / pageSize + 1
  {
    hide *;
    PageExists(|rows|, i, pageSize);
    forall page: nat | page >= 1
      ensures Shows(rows, page, pageSize, i) <==> page == i / pageSize + 1
    {
      PageIsSlice(rows, page, pageSize, i);
      OnlyPage(i, page, pageSize);
    }
  }

  lemma PageExists(total: nat, i: nat, pageSize: nat)
    requires i < total && pageSize > 0
    ensures 1 <= i / pageSize + 1 <= TotalPages(total, pageSize)
  {
    WithinPage(i, pageSize);
    PagesCover(total, pageSize);
    hide *;
    if i / pageSize >= TotalPages(total, pageSize) {
      TimesMonotone(TotalPages(total, pageSize), i / pageSize, pageSize);
    }
  }

  lemma OnlyPage(i: nat, page: nat, pageSize: nat)
    requires page >= 1 && pageSize > 0
    ensures (page - 1) * pageSize <= i < (page - 1) * pageSize + pageSize <==> page == i / pageSize + 1
  {
    var q := i / pageSize;
    WithinPage(i, pageSize);
    assert page * pageSize == (page - 1) * pageSize + pageSize;
    if page > q + 1 {
      TimesMonotone(q + 1, page - 1, pageSize);
    } else if page < q + 1 {
      TimesMonotone(page, q, pageSize);
    }
  }

  lemma WithinPage(i: nat, pageSize: nat)
    requires pageSize > 0
    ensures i / pageSize * pageSize <= i < (i / pageSize + 1) * pageSize
  {
    var q := i / pageSize;
    assert i == q * pageSize + i % pageSize;
    assert (q + 1) * pageSize == q * pageSize + pageSize;
  }
}
