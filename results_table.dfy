/**
 * The results table of the dashboard: a filter box over the page URLs and
 * column headers that sort the rows.  The component keeps three pieces of
 * state (the filter text, the sort key and the sort order); clicking a header
 * either flips the order of the current key or switches to a new key in
 * descending order.  The rows shown are the pages whose URL contains the
 * filter text, case-insensitively, sorted in place by the current key unless
 * the key is empty.
 */
module ResultsTable {
  import opened Wrappers
  import opened Strings
  import opened Seqs
  import opened Types

  /** The fields of a page result, i.e. `keyof PageResult`. */
  datatype Field = Id | Url | StatusField | LoremCount | Snippets | Timestamp | Title | ErrorMessage

  /** A sort key, or the empty key `''` under which nothing is sorted. */
  datatype SortKey = NoKey | Key(field: Field)

  datatype SortOrder = Asc | Desc

  /** What `a[sortKey]` is at run time, as far as the comparator can tell: a number, a string or anything else. */
  datatype FieldValue = Num(n: int) | Str(s: string) | Other

  function ValueOf(p: PageResult, f: Field): FieldValue {
    match f
    case Id => Str(p.id)
    case Url => Str(p.url)
    case StatusField => Str(StatusName(p.status))
    case LoremCount => Num(p.loremCount)
    case Snippets => Other
    case Timestamp => Str(p.timestamp)
    case Title => Str(p.title)
    case ErrorMessage => if p.error.Some? then Str(p.error.value) else Other
  }

  /**
   * The comparator of the memo: numbers by difference, strings by
   * `localeCompare` (given by `collate`), everything else as equal, and the
   * whole negated for a descending order.
   */
  function Compare(a: PageResult, b: PageResult, f: Field, order: SortOrder, collate: (string, string) -> int): int {
    var comparison :=
      match (ValueOf(a, f), ValueOf(b, f))
      case (Num(x), Num(y)) => x - y
      case (Str(x), Str(y)) => collate(x, y)
      case _ => 0;
    if order == Asc then comparison else -comparison
  }

  /** The order after a click on the header of `clicked`: the same key flips the order, a new key starts descending. */
  function AfterClick(key: SortKey, order: SortOrder, clicked: SortKey): (r: (SortKey, SortOrder)) {
    if key == clicked then (key, if order == Asc then Desc else Asc) else (clicked, Desc)
  }

  /** The pages whose lower-cased URL contains the lower-cased filter text, in page order. */
  function Filtered(pages: seq<PageResult>, filter: string): seq<PageResult> {
    Filter(pages, (p: PageResult) => Contains(Lower(p.url), Lower(filter)))
  }

  /** The rows the table shows. */
  function Shown(pages: seq<PageResult>, filter: string, key: SortKey, order: SortOrder, collate: (string, string) -> int): seq<PageResult> {
    var filtered := Filtered(pages, filter);
    if key == NoKey then filtered
    else SortWith(filtered, (a: PageResult, b: PageResult) => Compare(a, b, key.field, order, collate))
  }

  /** The badge variant of a status; the `outline` of the default branch is never produced. */
  function StatusVariant(status: Status): (v: string)
    ensures v != "outline"
  {
    match status
    case Lorem => "destructive"
    case Clean => "default"
    case Error => "secondary"
  }

  /** Distinct statuses get distinct badges. */
  lemma StatusVariantInjective(s: Status, t: Status)
    requires StatusVariant(s) == StatusVariant(t)
    ensures s == t
  {
  }

  /** The component's state. */
  class TableState {
    var filter: string
    var sortKey: SortKey
    var sortOrder: SortOrder

    /** The initial state: no filter, sorted by lorem count, descending. */
    constructor ()
      ensures filter == "" && sortKey == Key(LoremCount) && sortOrder == Desc
    {
      filter := "";
      sortKey := Key(LoremCount);
      sortOrder := Desc;
    }

    /** Typing into the filter box. */
    method SetFilter(text: string)
      modifies this
      ensures filter == text && sortKey == old(sortKey) && sortOrder == old(sortOrder)
    {
      filter := text;
    }

    /** `handleSort`: a click on the header of `key`. */
    method HandleSort(key: SortKey)
      modifies this
      ensures (sortKey, sortOrder) == AfterClick(old(sortKey), old(sortOrder), key)
      ensures filter == old(filter)
    {
      if sortKey == key {
        sortOrder := if sortOrder == Asc then Desc else Asc;
      } else {
        sortKey := key;
        sortOrder := Desc;
      }
    }

    /** `filteredAndSortedPages`: filter, then sort the filtered array in place unless the key is empty. */
    method FilteredAndSorted(pages: seq<PageResult>, collate: (string, string) -> int) returns (rows: seq<PageResult>)
      ensures rows == Shown(pages, filter, sortKey, sortOrder, collate)
    {
      var filtered := Filtered(pages, filter);
      if sortKey == NoKey {
        return filtered;
      }
      var a := new PageResult[|filtered|](i requires 0 <= i < |filtered| => filtered[i]);
      assert a[..] == filtered;
      var f, order := sortKey.field, sortOrder;
      SortInPlace(a, (x: PageResult, y: PageResult) => Compare(x, y, f, order, collate));
      rows := a[..];
    }
  }

  /** One pass of the insertion sort: `a[i]` moves left past every element of the sorted prefix that compares above it. */
  method InsertInPlace<T>(a: array<T>, i: nat, cmp: (T, T) -> int)
    requires i < a.Length
    modifies a
    ensures a[..i + 1] == Insert(old(a[..i]), old(a[i]), cmp)
    ensures a[i + 1..] == old(a[i + 1..])
  {
    ghost var t := a[..i];
    var x := a[i];
    var j := ShiftGreater(a, i, x, cmp);
    a[j] := x;
    ghost var r := t[..j] + [x] + t[j..];
    forall k | 0 <= k <= i ensures a[k] == r[k] {
      if k > j {
        assert r[k] == t[j..][k - j - 1];
      }
    }
    assert a[..i + 1] == r;
    assert a[i + 1..] == old(a[i + 1..]);
  }

  /**
   * The shifting loop: every element of the prefix `a[..i]` that compares
   * above `x`, from the right, moves one place to the right; `j` is the gap
   * left where `x` belongs.
   */
  method ShiftGreater<T>(a: array<T>, i: nat, x: T, cmp: (T, T) -> int) returns (j: nat)
    requires i < a.Length
    modifies a
    ensures j <= i
    ensures forall k :: 0 <= k < j ==> a[k] == old(a[k])
    ensures forall k :: j < k <= i ==> a[k] == old(a[k - 1])
    ensures forall k :: i < k < a.Length ==> a[k] == old(a[k])
    ensures Insert(old(a[..i]), x, cmp) == old(a[..i])[..j] + [x] + old(a[..i])[j..]
  {
    ghost var t := a[..i];
    j := i;
    while j > 0 && cmp(a[j - 1], x) > 0
      invariant 0 <= j <= i
      invariant forall k :: 0 <= k < j ==> a[k] == t[k]
      invariant forall k :: j < k <= i ==> a[k] == t[k - 1]
      invariant forall k :: i < k < a.Length ==> a[k] == old(a[k])
      invariant forall k :: j <= k < i ==> cmp(t[k], x) > 0
      decreases j
    {
      a[j] := a[j - 1];
      j := j - 1;
    }
    InsertAt(t, x, cmp, j);
  }

  /**
   * `x` goes in at `j` when the element before `j`, if any, does not compare
   * above it and every element from `j` on does.
   */
  lemma {:induction false} InsertAt<T>(t: seq<T>, x: T, cmp: (T, T) -> int, j: nat)
    requires j <= |t| && (j == 0 || cmp(t[j - 1], x) <= 0)
    requires forall k :: j <= k < |t| ==> cmp(t[k], x) > 0
    ensures Insert(t, x, cmp) == t[..j] + [x] + t[j..]
    decreases |t|
  {
    if |t| == j {
      assert t[..j] == t && t[j..] == [];
    } else {
      InsertAt(t[..|t| - 1], x, cmp, j);
      InsertSnoc(t, x, cmp);
      SplitLast(t, x, j);
    }
  }

  /** An element above `x` at the end of `t` stays at the end. */
  lemma InsertSnoc<T>(t: seq<T>, x: T, cmp: (T, T) -> int)
    requires t != [] && cmp(t[|t| - 1], x) > 0
    ensures Insert(t, x, cmp) == Insert(t[..|t| - 1], x, cmp) + [t[|t| - 1]]
  {
  }

  /** Putting `x` at `j` into `t` without its last element, then the last element back. */
  lemma SplitLast<T>(t: seq<T>, x: T, j: nat)
    requires j < |t|
    ensures t[..|t| - 1][..j] + [x] + t[..|t| - 1][j..] + [t[|t| - 1]] == t[..j] + [x] + t[j..]
  {
    var u := t[..|t| - 1];
    assert u[..j] == t[..j];
    assert u[j..] + [t[|t| - 1]] == t[j..];
  }

  /** `Array.prototype.sort` on an array, as the insertion sort `SortWith` describes. */
  method SortInPlace<T>(a: array<T>, cmp: (T, T) -> int)
    modifies a
    ensures a[..] == SortWith(old(a[..]), cmp)
  {
    ghost var s := a[..];
    for i := 0 to a.Length
      invariant a[..i] == SortWith(s[..i], cmp)
      invariant a[i..] == s[i..]
    {
      ghost var sorted := a[..i];
      assert a[i] == s[i] by { assert a[i..][0] == s[i..][0]; }
      InsertInPlace(a, i, cmp);
      SortWithSnoc(s, i, cmp);
      assert a[i + 1..] == s[i + 1..] by { assert s[i + 1..] == s[i..][1..]; }
    }
    assert a[..] == a[..a.Length] && s == s[..a.Length];
  }

  /** Sorting one more element inserts it into the sorted prefix. */
  lemma SortWithSnoc<T>(s: seq<T>, i: nat, cmp: (T, T) -> int)
    requires i < |s|
    ensures SortWith(s[..i + 1], cmp) == Insert(SortWith(s[..i], cmp), s[i], cmp)
  {
    assert s[..i + 1][..i] == s[..i] && s[..i + 1][i] == s[i];
  }

  /**
   * A click leaves the clicked key current; on the current key it flips the
   * order, so two clicks on it restore the state, and on another key it
   * starts descending.
   */
  lemma AfterClickMeaning(key: SortKey, order: SortOrder, clicked: SortKey)
    ensures var (k, o) := AfterClick(key, order, clicked);
      k == clicked
      && (key == clicked ==> o != order && AfterClick(k, o, clicked) == (key, order))
      && (key != clicked ==> o == Desc)
  {
  }

  /**
   * The filter keeps exactly the pages whose URL contains the text, ignoring
   * ASCII case, in their original order; an empty filter keeps every page.
   */
  lemma FilteredMeaning(pages: seq<PageResult>, filter: string)
    ensures forall p :: p in Filtered(pages, filter) <==> p in pages && Contains(Lower(p.url), Lower(filter))
    ensures forall a, b :: Filtered(a + b, filter) == Filtered(a, filter) + Filtered(b, filter)
    ensures filter == "" ==> Filtered(pages, filter) == pages
  {
    FilterMeaning(pages, (p: PageResult) => Contains(Lower(p.url), Lower(filter)));
    if filter == "" {
      forall i | 0 <= i < |pages| ensures Contains(Lower(pages[i].url), Lower(filter)) {
        ContainsEmpty(Lower(pages[i].url));
      }
    }
  }

  /** The rows are a rearrangement of the filtered pages, and the filtered pages themselves under the empty key. */
  lemma ShownPermutation(pages: seq<PageResult>, filter: string, key: SortKey, order: SortOrder, collate: (string, string) -> int)
    ensures multiset(Shown(pages, filter, key, order, collate)) == multiset(Filtered(pages, filter))
    ensures key == NoKey ==> Shown(pages, filter, key, order, collate) == Filtered(pages, filter)
  {
  }

  /**
   * Sorting descending compares every pair as ascending compares them the
   * other way round, provided `localeCompare` is antisymmetric.
   */
  lemma DescendingReversesAscending(a: PageResult, b: PageResult, f: Field, collate: (string, string) -> int)
    requires forall x, y :: collate(x, y) == -collate(y, x)
    ensures Compare(a, b, f, Desc, collate) == Compare(b, a, f, Asc, collate)
  {
    match (ValueOf(a, f), ValueOf(b, f)) {
      case (Num(x), Num(y)) =>
      case (Str(x), Str(y)) => assert collate(x, y) == -collate(y, x);
      case _ =>
    }
  }

  /** A field whose values are all of one kind; only the error message can be a string on one page and absent on another. */
  predicate Uniform(f: Field) {
    f != ErrorMessage
  }

  /** The rank a field's value sorts by when `localeCompare` compares `rank` values. */
  function Rank(p: PageResult, f: Field, rank: string -> int): int {
    match ValueOf(p, f)
    case Num(n) => n
    case Str(s) => rank(s)
    case Other => 0
  }

  /** The rank a field's value sorts by, in the given order. */
  function OrderedRank(p: PageResult, f: Field, order: SortOrder, rank: string -> int): int {
    if order == Asc then Rank(p, f, rank) else -Rank(p, f, rank)
  }

  function RankKey(f: Field, order: SortOrder, rank: string -> int): PageResult -> int {
    (p: PageResult) => OrderedRank(p, f, order, rank)
  }

  /**
   * `localeCompare` orders strings as `rank` does: negative exactly when the
   * first ranks lower, zero exactly when both rank the same.  Only the sign
   * of its result is constrained, so a `-1`/`0`/`1` comparison qualifies.
   */
  ghost predicate CollatesBy(collate: (string, string) -> int, rank: string -> int) {
    forall x, y :: (collate(x, y) < 0 <==> rank(x) < rank(y)) && (collate(x, y) == 0 <==> rank(x) == rank(y))
  }

  /** The sign of a number: `-1`, `0` or `1`. */
  function Sign(n: int): (r: int)
    ensures -1 <= r <= 1 && (r < 0 <==> n < 0) && (r == 0 <==> n == 0)
  {
    if n < 0 then -1 else if n == 0 then 0 else 1
  }

  /** A comparison answering only `-1`, `0` or `1` by any rank collates by that rank. */
  lemma SignCollates(rank: string -> int)
    ensures CollatesBy((x: string, y: string) => Sign(rank(x) - rank(y)), rank)
  {
  }

  /**
   * When `localeCompare` orders strings as a rank does, the comparator on a
   * uniform field has the sign of the difference of the (negated, for
   * descending) ranks.
   */
  lemma CompareKeyed(f: Field, order: SortOrder, collate: (string, string) -> int, rank: string -> int)
    requires Uniform(f)
    requires CollatesBy(collate, rank)
    ensures forall a: PageResult, b: PageResult ::
      (Compare(a, b, f, order, collate) < 0 <==> OrderedRank(a, f, order, rank) < OrderedRank(b, f, order, rank))
      && (Compare(a, b, f, order, collate) == 0 <==> OrderedRank(a, f, order, rank) == OrderedRank(b, f, order, rank))
    ensures KeyedBy((a: PageResult, b: PageResult) => Compare(a, b, f, order, collate), RankKey(f, order, rank))
  {
    forall a: PageResult, b: PageResult
      ensures (Compare(a, b, f, order, collate) < 0 <==> OrderedRank(a, f, order, rank) < OrderedRank(b, f, order, rank))
        && (Compare(a, b, f, order, collate) == 0 <==> OrderedRank(a, f, order, rank) == OrderedRank(b, f, order, rank))
    {
      match (ValueOf(a, f), ValueOf(b, f)) {
        case (Num(x), Num(y)) =>
        case (Str(x), Str(y)) =>
          assert (collate(x, y) < 0 <==> rank(x) < rank(y)) && (collate(x, y) == 0 <==> rank(x) == rank(y));
        case _ =>
      }
    }
  }

  /**
   * Sorted on a uniform field, the rows run by non-decreasing rank when
   * ascending and non-increasing rank when descending, and rows of equal
   * rank keep their page order.
   */
  lemma ShownOrdered(pages: seq<PageResult>, filter: string, f: Field, order: SortOrder,
                     collate: (string, string) -> int, rank: string -> int)
    requires Uniform(f)
    requires CollatesBy(collate, rank)
    ensures var rows := Shown(pages, filter, Key(f), order, collate);
      (forall i, j :: 0 <= i < j < |rows| ==>
        if order == Asc then Rank(rows[i], f, rank) <= Rank(rows[j], f, rank)
        else Rank(rows[i], f, rank) >= Rank(rows[j], f, rank))
      && forall k :: WithKey(rows, RankKey(f, order, rank), k) == WithKey(Filtered(pages, filter), RankKey(f, order, rank), k)
  {
    var cmp := (a: PageResult, b: PageResult) => Compare(a, b, f, order, collate);
    var key := RankKey(f, order, rank);
    CompareKeyed(f, order, collate, rank);
    SortWithStable(Filtered(pages, filter), cmp, key);
    var rows := Shown(pages, filter, Key(f), order, collate);
    forall i, j | 0 <= i < j < |rows|
      ensures if order == Asc then Rank(rows[i], f, rank) <= Rank(rows[j], f, rank)
              else Rank(rows[i], f, rank) >= Rank(rows[j], f, rank)
    {
      assert key(rows[i]) <= key(rows[j]);
    }
  }
}
