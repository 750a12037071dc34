/**
 * What the Convex queries of the stores have in common. A table is its rows in
 * insertion order (`_creationTime`); an index scan with equality on its fields
 * yields the matching rows in that order, `.order("desc")` reverses it and
 * `.take(n)` keeps the first `n`. Every store upserts on the key (user, url).
 */
module Tables {
  import opened Wrappers
  import opened Seqs

  const DefaultLimit: nat := 50

  /** `args.limit || 50`: an absent or zero limit means 50. */
  function EffectiveLimit(limit: Option<nat>): (n: nat)
    ensures n > 0
    ensures limit.Some? && limit.value > 0 ==> n == limit.value
    ensures limit.None? || limit.value == 0 ==> n == DefaultLimit
  {
    if limit.Some? && limit.value > 0 then limit.value else DefaultLimit
  }

  /**
   * `query.filter(p).order("desc").take(limit)`: the newest matching rows first,
   * exactly `limit` (50 by default) of them when more match, and all of them
   * otherwise.
   */
  function NewestFirst<T>(rows: seq<T>, p: T -> bool, limit: Option<nat>): (r: seq<T>)
    ensures |r| <= EffectiveLimit(limit) && |r| <= |Filter(rows, p)|
    ensures forall x :: x in r ==> x in rows && p(x)
    ensures forall i :: 0 <= i < |r| ==> r[i] == Filter(rows, p)[|Filter(rows, p)| - 1 - i]
    ensures |Filter(rows, p)| <= EffectiveLimit(limit) ==> |r| == |Filter(rows, p)|
    ensures |r| == if EffectiveLimit(limit) < |Filter(rows, p)| then EffectiveLimit(limit) else |Filter(rows, p)|
    ensures |Filter(rows, p)| <= EffectiveLimit(limit) ==> forall x :: x in rows && p(x) ==> x in r
  {
    var matching := Filter(rows, p);
    ReverseMembers(matching);
    Take(Reverse(matching), EffectiveLimit(limit))
  }

  /** The upsert key of every store. */
  datatype RowKey = RowKey(userId: string, url: string)

  /** `withIndex("by_user_url", ...).first()`: the oldest row with key `k`, if any. */
  function FindKey<T>(rows: seq<T>, key: T -> RowKey, k: RowKey): (r: Option<nat>)
    ensures r.None? <==> forall i :: 0 <= i < |rows| ==> key(rows[i]) != k
    ensures r.Some? ==> r.value < |rows| && key(rows[r.value]) == k
    ensures r.Some? ==> forall i :: 0 <= i < r.value ==> key(rows[i]) != k
  {
    if |rows| == 0 then None
    else if key(rows[0]) == k then Some(0)
    else match FindKey(rows[1..], key, k)
      case None => None
      case Some(i) => Some(i + 1)
  }

  /** No two rows share a key. */
  predicate UniqueKeys<T>(rows: seq<T>, key: T -> RowKey) {
    forall i, j :: 0 <= i < j < |rows| ==> key(rows[i]) != key(rows[j])
  }

  /** No two rows share an id, and every id is below `next`. */
  predicate FreshIds<T>(rows: seq<T>, id: T -> nat, next: nat) {
    && (forall i :: 0 <= i < |rows| ==> id(rows[i]) < next)
    && (forall i, j :: 0 <= i < j < |rows| ==> id(rows[i]) != id(rows[j]))
  }

  /** Exactly one row carries key `k`. */
  predicate SingleRow<T>(rows: seq<T>, key: T -> RowKey, k: RowKey) {
    exists i :: 0 <= i < |rows| && key(rows[i]) == k && forall j :: 0 <= j < |rows| && key(rows[j]) == k ==> j == i
  }

  /**
   * Replacing the row at `i` by one with the same key and id keeps keys unique
   * and ids fresh, and leaves exactly one row with that key.
   */
  lemma ReplaceKeepsInvariants<T>(rows: seq<T>, key: T -> RowKey, id: T -> nat, next: nat, i: nat, x: T)
    requires UniqueKeys(rows, key) && FreshIds(rows, id, next)
    requires i < |rows| && key(x) == key(rows[i]) && id(x) == id(rows[i])
    ensures UniqueKeys(rows[i := x], key) && FreshIds(rows[i := x], id, next)
    ensures SingleRow(rows[i := x], key, key(x))
  {
    var r := rows[i := x];
    assert r[i] == x;
    assert forall j :: 0 <= j < |r| && key(r[j]) == key(x) ==> j == i;
  }

  /**
   * Appending a row whose key is new and whose id is `next` keeps keys unique
   * and ids fresh below `next + 1`, and leaves exactly one row with that key.
   */
  lemma AppendKeepsInvariants<T>(rows: seq<T>, key: T -> RowKey, id: T -> nat, next: nat, x: T)
    requires UniqueKeys(rows, key) && FreshIds(rows, id, next)
    requires (forall i :: 0 <= i < |rows| ==> key(rows[i]) != key(x)) && id(x) == next
    ensures UniqueKeys(rows + [x], key) && FreshIds(rows + [x], id, next + 1)
    ensures SingleRow(rows + [x], key, key(x))
  {
    var r := rows + [x];
    assert r[|rows|] == x;
    assert forall j :: 0 <= j < |r| && key(r[j]) == key(x) ==> j == |rows|;
  }

  /** With unique keys, the row found for `k` is the one row that has it. */
  lemma FindUnique<T>(rows: seq<T>, key: T -> RowKey, i: nat)
    requires UniqueKeys(rows, key) && i < |rows|
    ensures FindKey(rows, key, key(rows[i])) == Some(i)
  {
  }

  /** The row `withIndex("by_user_url", ...).first()` returns for key `k`. */
  function Lookup<T>(rows: seq<T>, key: T -> RowKey, k: RowKey): (r: Option<T>)
    ensures r.Some? <==> exists i :: 0 <= i < |rows| && key(rows[i]) == k
    ensures r.Some? ==> r.value in rows && key(r.value) == k
  {
    match FindKey(rows, key, k)
    case None => None
    case Some(i) => Some(rows[i])
  }

  /**
   * The upsert every store performs: patch the row with key `k` in place (it keeps
   * its position, hence its `_creationTime`), or append `inserted` when there is none.
   */
  function Upsert<T>(rows: seq<T>, key: T -> RowKey, k: RowKey, patch: T -> T, inserted: T): seq<T> {
    match FindKey(rows, key, k)
    case Some(i) => rows[i := patch(rows[i])]
    case None => rows + [inserted]
  }

  /** `FindKey` only looks at keys. */
  lemma {:induction false} FindKeySameKeys<T>(a: seq<T>, b: seq<T>, key: T -> RowKey, k: RowKey)
    requires |a| == |b| && forall j :: 0 <= j < |a| ==> key(a[j]) == key(b[j])
    ensures FindKey(a, key, k) == FindKey(b, key, k)
    decreases |a|
  {
    if |a| > 0 {
      FindKeySameKeys(a[1..], b[1..], key, k);
    }
  }

  /** Looking up a key after appending a row. */
  lemma {:induction false} FindKeyAppend<T>(rows: seq<T>, key: T -> RowKey, x: T, k: RowKey)
    ensures FindKey(rows + [x], key, k) ==
      if FindKey(rows, key, k).Some? then FindKey(rows, key, k)
      else if key(x) == k then Some(|rows|) else None
    decreases |rows|
  {
    if |rows| > 0 {
      assert (rows + [x])[1..] == rows[1..] + [x];
      FindKeyAppend(rows[1..], key, x, k);
    }
  }

  /**
   * What an upsert guarantees when `patch` keeps the key and id of a row with key
   * `k` and `inserted` carries key `k` and the next id: keys stay unique and ids fresh, exactly one
   * row has key `k`, that row is the patched old row or `inserted`, every other key
   * finds what it found before, and the table grows only on an insert.
   */
  lemma UpsertSemantics<T>(rows: seq<T>, key: T -> RowKey, id: T -> nat, next: nat,
                           k: RowKey, patch: T -> T, inserted: T)
    requires UniqueKeys(rows, key) && FreshIds(rows, id, next)
    requires forall x :: key(x) == k ==> key(patch(x)) == k && id(patch(x)) == id(x)
    requires key(inserted) == k && id(inserted) == next
    ensures var r := Upsert(rows, key, k, patch, inserted);
      var next' := if Lookup(rows, key, k).Some? then next else next + 1;
      && UniqueKeys(r, key) && FreshIds(r, id, next') && SingleRow(r, key, k)
      && Lookup(r, key, k) == Some(if Lookup(rows, key, k).Some? then patch(Lookup(rows, key, k).value) else inserted)
      && (forall k' :: k' != k ==> Lookup(r, key, k') == Lookup(rows, key, k'))
      && |r| == |rows| + (if Lookup(rows, key, k).Some? then 0 else 1)
  {
    var r := Upsert(rows, key, k, patch, inserted);
    match FindKey(rows, key, k)
    case Some(i) =>
      var x := patch(rows[i]);
      ReplaceKeepsInvariants(rows, key, id, next, i, x);
      FindKeySameKeys(r, rows, key, k);
      forall k' | k' != k ensures Lookup(r, key, k') == Lookup(rows, key, k') {
        FindKeySameKeys(r, rows, key, k');
      }
    case None =>
      AppendKeepsInvariants(rows, key, id, next, inserted);
      FindKeyAppend(rows, key, inserted, k);
      forall k' | k' != k ensures Lookup(r, key, k') == Lookup(rows, key, k') {
        FindKeyAppend(rows, key, inserted, k');
      }
  }

  /**
   * An upsert rewrites at most the row with key `k`, every row keeps its position
   * and key, and an insert goes at the end: `patch` does not move a row, so the
   * `_creationTime` order of the table is unchanged.
   */
  lemma UpsertKeepsPositions<T>(rows: seq<T>, key: T -> RowKey, k: RowKey, patch: T -> T, inserted: T)
    requires forall x :: key(x) == k ==> key(patch(x)) == k
    ensures var r := Upsert(rows, key, k, patch, inserted);
      && |rows| <= |r| <= |rows| + 1
      && (forall i :: 0 <= i < |rows| ==> key(r[i]) == key(rows[i]))
      && (forall i :: 0 <= i < |rows| && key(rows[i]) != k ==> r[i] == rows[i])
      && (|r| > |rows| ==> r[|rows|] == inserted)
  {
  }
}
