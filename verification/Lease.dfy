/** Fenced ownership of a run: the lease row, how it is acquired and how it guards writes. */
module Lease {
  import opened Basics

  /** An unowned run has an empty owner. Times are instants of whatever clock the caller reads. */
  datatype LeaseRow = LeaseRow(owner: string, fence: nat, committed: nat, expires: int)

  datatype Fence = Fence(owner: string, token: nat)

  function Unleased(): LeaseRow {
    LeaseRow([], 0, 0, 0)
  }

  predicate Held(row: LeaseRow, owner: string, now: int) {
    row.owner != [] && row.owner != owner && row.expires > now
  }

  /** Acquisition fails while another owner holds a live lease; otherwise the token rises. */
  function Acquire(row: LeaseRow, owner: string, ttl: nat, now: int): Option<LeaseRow> {
    if owner == [] || ttl == 0 || Held(row, owner, now) then None
    else Some(LeaseRow(owner, row.fence + 1, row.committed, now + ttl))
  }

  /** Renewal extends a live lease of the same owner and token. */
  function Renew(row: LeaseRow, fence: Fence, ttl: nat, now: int): Option<LeaseRow> {
    if ttl > 0 && row.owner == fence.owner && row.fence == fence.token && row.expires > now
    then Some(row.(expires := now + ttl)) else None
  }

  /** Release gives up ownership without lowering the token. */
  function Release(row: LeaseRow, fence: Fence, now: int): Option<LeaseRow> {
    if row.owner == fence.owner && row.fence == fence.token then Some(row.(owner := [], expires := now)) else None
  }

  /** The ownership check inside every guarded write; it also records the committed token. */
  function Guard(row: LeaseRow, fence: Fence, now: int): Option<LeaseRow> {
    if fence.owner == [] || fence.token < row.committed then None
    else if row.owner != fence.owner || row.fence != fence.token then None
    else if row.expires <= now then None
    else Some(row.(committed := fence.token))
  }
}
