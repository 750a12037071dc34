/**
 * The two scan-result tables, `website_maps` (convex/websiteMaps.ts) and
 * `ai_files` (convex/aiFiles.ts), are written by the same code: an upsert on
 * (user, url) that overwrites the arguments and resets `created_at` to the save
 * time, a lookup by key, the user's newest rows and the rows of a domain. The
 * store here is generic in the arguments a row carries; each table supplies how
 * to read the key and the domain from them.
 */
module ScanTables {
  import opened Wrappers
  import opened Seqs
  import opened Tables

  /** A stored row: its id, the arguments of the last save and `created_at`. */
  datatype Stamped<A> = Stamped(id: nat, args: A, createdAt: int)

  function StampedKey<A>(keyOf: A -> RowKey): Stamped<A> -> RowKey {
    (s: Stamped<A>) => keyOf(s.args)
  }

  function StampedId<A>(): Stamped<A> -> nat {
    (s: Stamped<A>) => s.id
  }

  /** The patch of a save: `{...args, created_at: now}` on the same row. */
  function Restamp<A>(args: A, now: int): Stamped<A> -> Stamped<A> {
    (s: Stamped<A>) => Stamped(s.id, args, now)
  }

  function OwnedBy<A>(keyOf: A -> RowKey, userId: string): Stamped<A> -> bool {
    (s: Stamped<A>) => keyOf(s.args).userId == userId
  }

  function InDomainOf<A>(domainOf: A -> string, domain: string): Stamped<A> -> bool {
    (s: Stamped<A>) => domainOf(s.args) == domain
  }

  /** Keys are unique and ids are fresh. */
  predicate ScanInvariant<A>(rows: seq<Stamped<A>>, keyOf: A -> RowKey, next: nat) {
    UniqueKeys(rows, StampedKey(keyOf)) && FreshIds(rows, StampedId(), next)
  }

  /** The row `first()` finds for the key of `args`. */
  function Existing<A>(rows: seq<Stamped<A>>, keyOf: A -> RowKey, k: RowKey): Option<Stamped<A>> {
    Lookup(rows, StampedKey(keyOf), k)
  }

  /**
   * The table after a save of `args` at time `now`: the row with the same key is
   * overwritten in place with the arguments and `created_at = now`; otherwise a
   * row with id `next` and `created_at = now` is appended.
   */
  function SavedScans<A>(rows: seq<Stamped<A>>, keyOf: A -> RowKey, args: A, now: int, next: nat): seq<Stamped<A>> {
    Upsert(rows, StampedKey(keyOf), keyOf(args), Restamp(args, now), Stamped(next, args, now))
  }

  function NextAfterScan<A>(rows: seq<Stamped<A>>, keyOf: A -> RowKey, args: A, next: nat): nat {
    if Existing(rows, keyOf, keyOf(args)).Some? then next else next + 1
  }

  /**
   * After a save exactly one row has the key. It holds the new arguments and
   * `created_at = now` whether it was updated or inserted; an updated row keeps
   * its id, an inserted one takes the next id. No other key's row changes and
   * no row moves.
   */
  lemma SaveScanSemantics<A>(rows: seq<Stamped<A>>, keyOf: A -> RowKey, args: A, now: int, next: nat)
    requires ScanInvariant(rows, keyOf, next)
    ensures var r := SavedScans(rows, keyOf, args, now, next);
      var k := keyOf(args);
      var before := Existing(rows, keyOf, k);
      && ScanInvariant(r, keyOf, NextAfterScan(rows, keyOf, args, next))
      && SingleRow(r, StampedKey(keyOf), k)
      && Existing(r, keyOf, k) == Some(Stamped(if before.Some? then before.value.id else next, args, now))
      && (forall k' :: k' != k ==> Existing(r, keyOf, k') == Existing(rows, keyOf, k'))
      && |r| == |rows| + (if before.Some? then 0 else 1)
      && (forall i :: 0 <= i < |rows| ==> keyOf(r[i].args) == keyOf(rows[i].args))
  {
    var key := StampedKey(keyOf);
    UpsertSemantics(rows, key, StampedId(), next, keyOf(args), Restamp(args, now), Stamped(next, args, now));
    UpsertKeepsPositions(rows, key, keyOf(args), Restamp(args, now), Stamped(next, args, now));
  }

  /**
   * Saving the same key twice leaves one row with the id of the first save and
   * the `created_at` of the second: unlike an evaluation, a re-scanned map or
   * file check forgets when it was first made.
   */
  lemma SaveScanTwice<A>(rows: seq<Stamped<A>>, keyOf: A -> RowKey, a1: A, a2: A, t1: int, t2: int, next: nat)
    requires ScanInvariant(rows, keyOf, next)
    requires keyOf(a1) == keyOf(a2)
    ensures var once := SavedScans(rows, keyOf, a1, t1, next);
      var twice := SavedScans(once, keyOf, a2, t2, NextAfterScan(rows, keyOf, a1, next));
      && |twice| == |once|
      && SingleRow(twice, StampedKey(keyOf), keyOf(a2))
      && Existing(twice, keyOf, keyOf(a2)) == Some(Stamped(Existing(once, keyOf, keyOf(a1)).value.id, a2, t2))
  {
    SaveScanSemantics(rows, keyOf, a1, t1, next);
    SaveScanSemantics(SavedScans(rows, keyOf, a1, t1, next), keyOf, a2, t2, NextAfterScan(rows, keyOf, a1, next));
  }

  /** A scan-result table. */
  class ScanStore<A(!new)> {
    const keyOf: A -> RowKey
    const domainOf: A -> string
    var rows: seq<Stamped<A>>
    var nextId: nat

    ghost predicate Valid()
      reads this
    {
      ScanInvariant(rows, keyOf, nextId)
    }

    constructor(keyOf: A -> RowKey, domainOf: A -> string)
      ensures Valid() && rows == [] && nextId == 0
      ensures this.keyOf == keyOf && this.domainOf == domainOf
    {
      this.keyOf := keyOf;
      this.domainOf := domainOf;
      rows := [];
      nextId := 0;
    }

    /** The save mutation: returns the id of the row that now holds `args`. */
    method Save(args: A, now: int) returns (id: nat)
      requires Valid()
      modifies this
      ensures Valid()
      ensures rows == SavedScans(old(rows), keyOf, args, now, old(nextId))
      ensures nextId == NextAfterScan(old(rows), keyOf, args, old(nextId))
      ensures Existing(rows, keyOf, keyOf(args)) == Some(Stamped(id, args, now))
    {
      SaveScanSemantics(rows, keyOf, args, now, nextId);
      var found := FindKey(rows, StampedKey(keyOf), keyOf(args));
      if found.Some? {
        var existing := rows[found.value];
        rows := rows[found.value := Stamped(existing.id, args, now)];
        id := existing.id;
      } else {
        rows := rows + [Stamped(nextId, args, now)];
        id := nextId;
        nextId := nextId + 1;
      }
    }

    /** The lookup by (user, url). */
    function Get(userId: string, url: string): (r: Option<Stamped<A>>)
      reads this
      ensures r.Some? <==> exists s :: s in rows && keyOf(s.args) == RowKey(userId, url)
      ensures r.Some? ==> r.value in rows && keyOf(r.value.args) == RowKey(userId, url)
    {
      var r := Existing(rows, keyOf, RowKey(userId, url));
      assert r.None? ==> forall s :: s in rows ==> keyOf(s.args) != RowKey(userId, url);
      r
    }

    /** The user's newest rows by insertion, at most `limit` (50 by default). */
    function ByUser(userId: string, limit: Option<nat>): (r: seq<Stamped<A>>)
      reads this
      ensures |r| <= EffectiveLimit(limit) && |r| <= |Filter(rows, OwnedBy(keyOf, userId))|
      ensures forall s :: s in r ==> s in rows && keyOf(s.args).userId == userId
      ensures forall i :: 0 <= i < |r| ==>
        r[i] == Filter(rows, OwnedBy(keyOf, userId))[|Filter(rows, OwnedBy(keyOf, userId))| - 1 - i]
      ensures |Filter(rows, OwnedBy(keyOf, userId))| <= EffectiveLimit(limit) ==>
        forall s :: s in rows && keyOf(s.args).userId == userId ==> s in r
      ensures var f := Filter(rows, OwnedBy(keyOf, userId));
        |r| == if EffectiveLimit(limit) < |f| then EffectiveLimit(limit) else |f|
    {
      NewestFirst(rows, OwnedBy(keyOf, userId), limit)
    }

    /** Exactly the rows of a domain, oldest first. */
    function ByDomain(domain: string): (r: seq<Stamped<A>>)
      reads this
      ensures forall s :: s in r <==> s in rows && domainOf(s.args) == domain
      ensures multiset(r) <= multiset(rows)
      ensures Subsequence(r, rows)
    {
      FilterMultiset(rows, InDomainOf(domainOf, domain));
      FilterSubsequence(rows, InDomainOf(domainOf, domain));
      Filter(rows, InDomainOf(domainOf, domain))
    }
  }
}
