/** The transfer page's progress ledger (src/app/transfer/page.tsx and the
    TransferProgress record of src/types/spotify.ts): one row per selected
    category, updated by merging partial records into the rows whose
    category matches. */
module Progress {
  import opened Wrappers

  datatype Status = Pending | InProgress | Completed | Error

  datatype TransferProgress = TransferProgress(
    category: string,
    current: nat,
    total: nat,
    status: Status,
    error: Option<string>)

  /** A Partial<TransferProgress>: each field that is present overwrites. */
  datatype Update = Update(
    current: Option<nat>,
    total: Option<nat>,
    status: Option<Status>,
    error: Option<string>)

  function SetTotal(n: nat): Update { Update(None, Some(n), None, None) }
  function SetCurrent(n: nat): Update { Update(Some(n), None, None, None) }
  function SetStatus(s: Status): Update { Update(None, None, Some(s), None) }
  function SetFailed(message: string): Update { Update(None, None, Some(Error), Some(message)) }

  /** `{ ...item, ...updates }` */
  function Merge(item: TransferProgress, u: Update): TransferProgress {
    TransferProgress(
      item.category,
      if u.current.Some? then u.current.value else item.current,
      if u.total.Some? then u.total.value else item.total,
      if u.status.Some? then u.status.value else item.status,
      if u.error.Some? then u.error else item.error)
  }

  /** The ledger after updateProgress(category, u). */
  function Updated(p: seq<TransferProgress>, category: string, u: Update): seq<TransferProgress>
    decreases |p|
  {
    if p == [] then []
    else [if p[0].category == category then Merge(p[0], u) else p[0]] + Updated(p[1..], category, u)
  }

  /** updateProgress keeps the length and the order, merges `u` into every
      row of `category` and leaves every other row as it was. */
  lemma {:induction false} UpdatedAt(p: seq<TransferProgress>, category: string, u: Update)
    ensures |Updated(p, category, u)| == |p|
    ensures forall i :: 0 <= i < |p| ==>
      Updated(p, category, u)[i] == if p[i].category == category then Merge(p[i], u) else p[i]
    decreases |p|
  {
    if p != [] {
      UpdatedAt(p[1..], category, u);
    }
  }

  /** The row startTransfer creates for a category. */
  function Fresh(category: string): TransferProgress {
    TransferProgress(category, 0, 0, Pending, None)
  }

  /** startTransfer's initial ledger: one fresh row per selected category,
      in selection order. */
  function InitialProgress(selected: seq<string>): (p: seq<TransferProgress>)
    ensures |p| == |selected|
    ensures forall i :: 0 <= i < |p| ==> p[i] == Fresh(selected[i])
    decreases |selected|
  {
    if selected == [] then [] else [Fresh(selected[0])] + InitialProgress(selected[1..])
  }

  /** completedCategories: the rows whose status is completed. */
  function CompletedCount(p: seq<TransferProgress>): (n: nat)
    ensures n <= |p|
    ensures n == |p| <==> forall i :: 0 <= i < |p| ==> p[i].status == Completed
    decreases |p|
  {
    if p == [] then 0
    else (if p[0].status == Completed then 1 else 0) + CompletedCount(p[1..])
  }

  /** The status order: pending, then in progress, then completed or error,
      both final. */
  predicate Precedes(s: Status, t: Status) {
    s == t || s == Pending || (s == InProgress && (t == Completed || t == Error))
  }

  predicate Distinct(s: seq<string>) {
    forall i, j :: 0 <= i < j < |s| ==> s[i] != s[j]
  }

  /** current <= total in every row. */
  predicate Bounded(p: seq<TransferProgress>) {
    forall i :: 0 <= i < |p| ==> p[i].current <= p[i].total
  }

  /** b is a later state of the ledger a: same rows, no status went back
      and no count went down. */
  predicate Advanced(a: seq<TransferProgress>, b: seq<TransferProgress>) {
    |a| == |b| &&
    forall i :: 0 <= i < |a| ==>
      a[i].category == b[i].category && Precedes(a[i].status, b[i].status) && a[i].current <= b[i].current
  }

  /** Every snapshot of h after position `from` advances on its predecessor
      and is bounded. */
  ghost predicate Steady(h: seq<seq<TransferProgress>>, from: nat) {
    forall j :: from < j < |h| ==> Advanced(h[j - 1], h[j]) && Bounded(h[j])
  }

  /** Only the counts of the rows of `category` differ between a and b. */
  predicate CountsOnly(a: seq<TransferProgress>, b: seq<TransferProgress>, category: string) {
    |a| == |b| &&
    forall i :: 0 <= i < |a| ==>
      if a[i].category == category then b[i] == a[i].(current := b[i].current, total := b[i].total)
      else b[i] == a[i]
  }

  /** Every row of `category` reads current / total. */
  predicate HasCounts(p: seq<TransferProgress>, category: string, current: nat, total: nat) {
    forall i :: 0 <= i < |p| && p[i].category == category ==> p[i].current == current && p[i].total == total
  }

  /** Every row of `category` has not been counted yet. */
  predicate ZeroCurrent(p: seq<TransferProgress>, category: string) {
    forall i :: 0 <= i < |p| && p[i].category == category ==> p[i].current == 0
  }

  /** A row that has left `pending` only follows completed rows. */
  predicate FailFast(p: seq<TransferProgress>) {
    forall i, j :: 0 <= i < j < |p| && p[j].status != Pending ==> p[i].status == Completed
  }

  predicate NoneInProgress(p: seq<TransferProgress>) {
    forall i :: 0 <= i < |p| ==> p[i].status != InProgress
  }

  /** An update whose status (if any) is a later status of every row it
      touches, and whose count (if any) is no lower than theirs, moves the
      ledger forward. */
  lemma UpdatedAdvances(p: seq<TransferProgress>, category: string, u: Update)
    requires u.status.Some? ==>
      forall i :: 0 <= i < |p| && p[i].category == category ==> Precedes(p[i].status, u.status.value)
    requires u.current.Some? ==>
      forall i :: 0 <= i < |p| && p[i].category == category ==> p[i].current <= u.current.value
    ensures Advanced(p, Updated(p, category, u))
  {
    UpdatedAt(p, category, u);
  }

  /** Appending an advancing, bounded snapshot keeps a history steady. */
  lemma SteadySnoc(h: seq<seq<TransferProgress>>, from: nat, next: seq<TransferProgress>)
    requires Steady(h, from) && from < |h|
    requires Advanced(h[|h| - 1], next) && Bounded(next)
    ensures Steady(h + [next], from)
  {
  }

  /** Two steady stretches that meet make one. */
  lemma SteadyTrans(h: seq<seq<TransferProgress>>, h': seq<seq<TransferProgress>>, from: nat)
    requires Steady(h, from) && from < |h| && |h| <= |h'| && h'[..|h|] == h
    requires Steady(h', |h| - 1)
    ensures Steady(h', from)
  {
    forall j | from < j < |h'|
      ensures Advanced(h'[j - 1], h'[j]) && Bounded(h'[j])
    {
      if j < |h| {
        assert h'[j] == h[j] && h'[j - 1] == h[j - 1];
      }
    }
  }

  /** In a fail-fast ledger at most one row is in error, and every row
      after it is still pending. */
  lemma FailFastShape(p: seq<TransferProgress>, k: nat)
    requires FailFast(p) && k < |p| && p[k].status == Error
    ensures forall i :: 0 <= i < k ==> p[i].status == Completed
    ensures forall i :: k < i < |p| ==> p[i].status == Pending
  {
  }

  /** A ledger of k completed rows followed by rows that are not completed
      counts k completed categories. */
  lemma {:induction false} CompletedCountOfRun(p: seq<TransferProgress>, k: nat)
    requires k <= |p|
    requires forall i :: 0 <= i < k ==> p[i].status == Completed
    requires forall i :: k <= i < |p| ==> p[i].status != Completed
    ensures CompletedCount(p) == k
    decreases |p|
  {
    if p != [] {
      if k == 0 {
        CompletedCountOfRun(p[1..], 0);
      } else {
        CompletedCountOfRun(p[1..], k - 1);
      }
    }
  }
}
