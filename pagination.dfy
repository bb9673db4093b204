/**
 * Offset pagination state: src/shared/hooks/usePagination.ts.
 *
 * Two state cells, `limit` and `offset`. `updateLimit` clamps the page size
 * into [1, MAX_PAGE_SIZE] and goes back to the first page; `nextPage` and
 * `prevPage` move the offset by one page, never below zero going back;
 * `reset` restores the first page and the caller's initial page size.
 */
module Pagination {
  import opened Optional
  import opened ApiConstants

  /** `Partial<PaginationState>`: the caller's overrides. */
  datatype Overrides = Overrides(limit: Option<int>, offset: Option<int>)

  /** A `PaginationState`. */
  datatype Page = Page(limit: int, offset: int)

  /** `initial?.limit ?? DEFAULT_PAGE_SIZE`: an override is used as given, unclamped. */
  function InitialLimit(initial: Option<Overrides>): (r: int)
    ensures initial.Some? && initial.value.limit.Some? ==> r == initial.value.limit.value
    ensures (initial.None? || initial.value.limit.None?) ==> r == DEFAULT_PAGE_SIZE
  {
    if initial.Some? && initial.value.limit.Some? then initial.value.limit.value else DEFAULT_PAGE_SIZE
  }

  /** `initial?.offset ?? 0`. */
  function InitialOffset(initial: Option<Overrides>): (r: int)
    ensures initial.Some? && initial.value.offset.Some? ==> r == initial.value.offset.value
    ensures (initial.None? || initial.value.offset.None?) ==> r == 0
  {
    if initial.Some? && initial.value.offset.Some? then initial.value.offset.value else 0
  }

  /** `Math.max` on two integers: the larger one. */
  function Max(a: int, b: int): (r: int)
    ensures r >= a && r >= b && (r == a || r == b)
  {
    if a >= b then a else b
  }

  /** `Math.min` on two integers: the smaller one. */
  function Min(a: int, b: int): (r: int)
    ensures r <= a && r <= b && (r == a || r == b)
  {
    if a <= b then a else b
  }

  /** `Math.min(Math.max(next, 1), MAX_PAGE_SIZE)`: the nearest page size in [1, MAX_PAGE_SIZE]. */
  function ClampLimit(next: int): (r: int)
    ensures 1 <= r <= MAX_PAGE_SIZE
    ensures 1 <= next <= MAX_PAGE_SIZE ==> r == next
    ensures next < 1 ==> r == 1
    ensures next > MAX_PAGE_SIZE ==> r == MAX_PAGE_SIZE
  {
    Min(Max(next, 1), MAX_PAGE_SIZE)
  }

  /** The four operations of the hook. */
  datatype PageOp = UpdateLimit(next: int) | NextPage | PrevPage | Reset

  /** The state after one operation; `resetLimit` is `initial?.limit ?? DEFAULT_PAGE_SIZE`. */
  function Apply(p: Page, op: PageOp, resetLimit: int): (r: Page)
    ensures op.UpdateLimit? ==> r == Page(ClampLimit(op.next), 0) && 1 <= r.limit <= MAX_PAGE_SIZE
    ensures op.NextPage? ==> r.limit == p.limit && r.offset - p.offset == p.limit
    ensures op.PrevPage? ==> r.limit == p.limit && r.offset >= 0
    ensures op.PrevPage? && p.offset >= p.limit ==> r.offset == p.offset - p.limit
    ensures op.PrevPage? && p.offset <= p.limit ==> r.offset == 0
    ensures op.Reset? ==> r == Page(resetLimit, 0)
  {
    match op
    case UpdateLimit(next) => Page(ClampLimit(next), 0)
    case NextPage => p.(offset := p.offset + p.limit)
    case PrevPage => p.(offset := Max(p.offset - p.limit, 0))
    case Reset => Page(resetLimit, 0)
  }

  /** The state after a run of operations, in order. */
  function Run(p: Page, ops: seq<PageOp>, resetLimit: int): Page
    decreases |ops|
  {
    if ops == [] then p else Run(Apply(p, ops[0], resetLimit), ops[1..], resetLimit)
  }

  predicate Sane(p: Page) {
    p.limit >= 1 && p.offset >= 0
  }

  /** From a state with a positive page size and a non-negative offset, every operation keeps both. */
  lemma ApplyKeepsSane(p: Page, op: PageOp, resetLimit: int)
    requires Sane(p) && resetLimit >= 1
    ensures Sane(Apply(p, op, resetLimit))
  {
  }

  /**
   * Any run of operations keeps the page size positive and the offset
   * non-negative, provided it starts so and `reset` restores a positive page size.
   */
  lemma {:induction false} RunKeepsSane(p: Page, ops: seq<PageOp>, resetLimit: int)
    requires Sane(p) && resetLimit >= 1
    ensures Sane(Run(p, ops, resetLimit))
    decreases |ops|
  {
    if ops != [] {
      ApplyKeepsSane(p, ops[0], resetLimit);
      RunKeepsSane(Apply(p, ops[0], resetLimit), ops[1..], resetLimit);
    }
  }

  /**
   * The overrides are not clamped: a negative initial page size makes
   * `nextPage` go below zero, and a negative initial offset starts there.
   */
  lemma UnclampedOverrides()
    ensures Run(Page(InitialLimit(Some(Overrides(Some(-5), None))), 0), [NextPage], -5).offset == -5
    ensures InitialOffset(Some(Overrides(None, Some(-3)))) == -3
  {
    assert Run(Page(-5, 0), [NextPage], -5) == Run(Page(-5, -5), [], -5);
  }

  /** Going forward then back returns to the same page. */
  lemma NextThenPrev(p: Page, resetLimit: int)
    requires p.offset >= 0
    ensures Apply(Apply(p, NextPage, resetLimit), PrevPage, resetLimit) == p
  {
  }

  /** On the first page, going back stays there. */
  lemma PrevOnFirstPage(p: Page, resetLimit: int)
    requires p.offset == 0 && p.limit >= 0
    ensures Apply(p, PrevPage, resetLimit) == p
  {
  }

  /**
   * Calling `updateLimit` again with the page size it set keeps that page
   * size: the clamp changes nothing the second time.
   */
  lemma UpdateLimitWithCurrentSize(p: Page, next: int, resetLimit: int)
    ensures var q := Apply(p, UpdateLimit(next), resetLimit);
            Apply(q, UpdateLimit(q.limit), resetLimit) == q
  {
  }

  /** The hook's state: two cells, updated by the four operations. */
  class PaginationState {
    var limit: int
    var offset: int
    /** `initial?.limit ?? DEFAULT_PAGE_SIZE` as of the latest render. */
    var resetLimit: int

    function Current(): Page
      reads this
    {
      Page(limit, offset)
    }

    /** `usePagination(initial)`: `reset` later restores the same page size. */
    constructor (initial: Option<Overrides>)
      ensures limit == InitialLimit(initial) && offset == InitialOffset(initial)
      ensures resetLimit == InitialLimit(initial)
    {
      limit := InitialLimit(initial);
      offset := InitialOffset(initial);
      resetLimit := InitialLimit(initial);
    }

    /**
     * A later render `usePagination(initial)`: the state cells keep their
     * values, but `reset` now restores the new `initial?.limit`.
     */
    method Rerender(initial: Option<Overrides>)
      modifies this
      ensures Current() == old(Current())
      ensures resetLimit == InitialLimit(initial)
    {
      resetLimit := InitialLimit(initial);
    }

    /** `updateLimit(next)`. */
    method UpdateLimit(next: int)
      modifies this
      ensures resetLimit == old(resetLimit)
      ensures Current() == Apply(old(Current()), PageOp.UpdateLimit(next), resetLimit)
      ensures limit == ClampLimit(next) && offset == 0
    {
      var value := ClampLimit(next);
      limit := value;
      offset := 0;
    }

    /** `nextPage()`. */
    method NextPage()
      modifies this
      ensures resetLimit == old(resetLimit)
      ensures Current() == Apply(old(Current()), PageOp.NextPage, resetLimit)
      ensures limit == old(limit) && offset == old(offset) + old(limit)
    {
      offset := offset + limit;
    }

    /** `prevPage()`. */
    method PrevPage()
      modifies this
      ensures resetLimit == old(resetLimit)
      ensures Current() == Apply(old(Current()), PageOp.PrevPage, resetLimit)
      ensures limit == old(limit) && offset >= 0
      ensures old(offset) == 0 && old(limit) >= 0 ==> offset == 0
    {
      offset := Max(offset - limit, 0);
    }

    /** `reset()`. */
    method Reset()
      modifies this
      ensures resetLimit == old(resetLimit)
      ensures Current() == Apply(old(Current()), PageOp.Reset, resetLimit)
      ensures offset == 0 && limit == resetLimit
    {
      offset := 0;
      limit := resetLimit;
    }
  }
}
