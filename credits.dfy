/**
 * The prepaid credit ledger (convex/credits.ts): one balance record per user in
 * `user_credits` and an append-only `credit_transactions` log. Every mutation
 * is one atomic step; `now` stands for `Date.now()`.
 */
module Credits {
  import opened Wrappers
  import opened Seqs
  import opened Tables

  /** A purchasable credit package of `PRICING_PACKAGES`; prices and savings in US cents. */
  datatype Package = Package(name: string, credits: nat, priceCents: nat, description: string, savingsCents: Option<nat>)

  const Starter := Package("Starter Pack", 1, 500, "Perfect for testing our service", None)
  const Growth := Package("Growth Pack", 5, 2000, "Best value for regular users", Some(500))
  const Pro := Package("Pro Pack", 15, 5000, "For power users and agencies", Some(2500))

  /** The keys of `PRICING_PACKAGES`, in declaration order. */
  const PackageKeys: seq<string> := ["starter", "growth", "pro"]

  /** Own-key lookup in `PRICING_PACKAGES`. */
  function PricingPackage(key: string): (p: Option<Package>)
    ensures p.Some? <==> key in PackageKeys
  {
    if key == "starter" then Some(Starter)
    else if key == "growth" then Some(Growth)
    else if key == "pro" then Some(Pro)
    else None
  }

  /** `SCAN_COSTS` */
  const BasicScanCost: nat := 1
  const PremiumScanCost: nat := 3

  datatype TransactionType = Purchase | Consumption

  /** The string stored in a transaction's `type` field. */
  function TypeName(t: TransactionType): string {
    match t
    case Purchase => "purchase"
    case Consumption => "consumption"
  }

  /** A `user_credits` row; `id` is its document id. */
  datatype UserCredits = UserCredits(
    id: nat, userId: string, credits: int, totalPurchased: int, totalConsumed: int, lastUpdated: int)

  /** A `credit_transactions` row. */
  datatype Transaction = Transaction(
    userId: string, kind: TransactionType, amount: int, creditsBefore: int, creditsAfter: int,
    description: string, scanType: Option<string>, scanUrl: Option<string>,
    packageType: Option<string>, pricePaid: Option<int>, createdAt: int)

  /** What `consumeCredits` returns, or the "Insufficient credits" error it throws. */
  datatype ConsumeResult = Consumed(newBalance: int) | InsufficientCredits

  predicate IsPurchase(t: Transaction) { t.kind == Purchase }
  predicate IsConsumption(t: Transaction) { t.kind == Consumption }

  /** The result of `checkCreditsForScan`. */
  datatype ScanCheck = ScanCheck(hasEnoughCredits: bool, availableCredits: int, requiredCredits: nat, shortfall: nat)

  /** The result of `getCreditStats`; times are `created_at` values. */
  datatype CreditStats = CreditStats(
    currentBalance: int, totalPurchased: int, totalConsumed: int,
    totalPurchases: nat, totalScans: nat, recentScans30d: nat, averageMonthlyUsage: nat,
    lastPurchase: Option<int>, lastScan: Option<int>)

  const WelcomeDescription := "Welcome bonus - Free credit for new users"

  /** Thirty days in milliseconds. */
  const ThirtyDays: int := 30 * 24 * 60 * 60 * 1000

  // ---- the rows each mutation writes ----

  function WelcomeRecord(id: nat, userId: string, now: int): UserCredits {
    UserCredits(id, userId, 1, 1, 0, now)
  }

  function WelcomeTransaction(userId: string, now: int): Transaction {
    Transaction(userId, Purchase, 1, 0, 1, WelcomeDescription, None, None, Some("free"), Some(0), now)
  }

  /** The zero record `addCredits` inserts for a user without one. */
  function EmptyRecord(id: nat, userId: string, now: int): UserCredits {
    UserCredits(id, userId, 0, 0, 0, now)
  }

  function Credited(r: UserCredits, credits: int, now: int): UserCredits {
    r.(credits := r.credits + credits, totalPurchased := r.totalPurchased + credits, lastUpdated := now)
  }

  function PurchaseTransaction(userId: string, credits: int, before: int, packageType: string,
                               pricePaid: int, description: string, now: int): Transaction {
    Transaction(userId, Purchase, credits, before, before + credits, description, None, None,
                Some(packageType), Some(pricePaid), now)
  }

  function Debited(r: UserCredits, credits: int, now: int): UserCredits {
    r.(credits := r.credits - credits, totalConsumed := r.totalConsumed + credits, lastUpdated := now)
  }

  function ConsumptionTransaction(userId: string, credits: int, before: int, scanType: string,
                                  scanUrl: string, description: string, now: int): Transaction {
    Transaction(userId, Consumption, credits, before, before - credits, description, Some(scanType),
                Some(scanUrl), None, None, now)
  }

  // ---- what the log says about one user ----

  /** Sum of the amounts of `userId`'s purchase transactions. */
  function PurchasedIn(txs: seq<Transaction>, userId: string): int {
    if |txs| == 0 then 0
    else
      var t := txs[|txs| - 1];
      PurchasedIn(txs[..|txs| - 1], userId) + (if t.userId == userId && t.kind == Purchase then t.amount else 0)
  }

  /** Sum of the amounts of `userId`'s consumption transactions. */
  function ConsumedIn(txs: seq<Transaction>, userId: string): int {
    if |txs| == 0 then 0
    else
      var t := txs[|txs| - 1];
      ConsumedIn(txs[..|txs| - 1], userId) + (if t.userId == userId && t.kind == Consumption then t.amount else 0)
  }

  /** `userId`'s newest transaction. */
  function LastOf(txs: seq<Transaction>, userId: string): Option<Transaction> {
    if |txs| == 0 then None
    else if txs[|txs| - 1].userId == userId then Some(txs[|txs| - 1])
    else LastOf(txs[..|txs| - 1], userId)
  }

  /** Appending one transaction changes only its own user's sums and newest entry. */
  lemma AppendTransaction(txs: seq<Transaction>, t: Transaction)
    ensures forall u {:trigger PurchasedIn(txs + [t], u)} ::
              PurchasedIn(txs + [t], u)
              == PurchasedIn(txs, u) + (if t.userId == u && t.kind == Purchase then t.amount else 0)
    ensures forall u {:trigger ConsumedIn(txs + [t], u)} ::
              ConsumedIn(txs + [t], u)
              == ConsumedIn(txs, u) + (if t.userId == u && t.kind == Consumption then t.amount else 0)
    ensures forall u {:trigger LastOf(txs + [t], u)} ::
              LastOf(txs + [t], u) == if t.userId == u then Some(t) else LastOf(txs, u)
  {
    assert (txs + [t])[..|txs|] == txs;
  }

  /** A user who appears in no transaction has empty sums and no newest entry. */
  lemma {:induction false} AbsentUser(txs: seq<Transaction>, userId: string)
    requires forall i :: 0 <= i < |txs| ==> txs[i].userId != userId
    ensures PurchasedIn(txs, userId) == 0 && ConsumedIn(txs, userId) == 0 && LastOf(txs, userId) == None
  {
    if |txs| > 0 {
      AbsentUser(txs[..|txs| - 1], userId);
    }
  }

  /** The arithmetic of one log entry: purchases add their amount, consumptions subtract it. */
  predicate EntryBalanced(t: Transaction) {
    match t.kind
    case Purchase => t.creditsAfter == t.creditsBefore + t.amount
    case Consumption => t.creditsAfter == t.creditsBefore - t.amount
  }

  /** One user's record agrees with the log. */
  predicate RecordMatchesLog(r: UserCredits, txs: seq<Transaction>) {
    && r.credits == r.totalPurchased - r.totalConsumed
    && r.totalPurchased == PurchasedIn(txs, r.userId)
    && r.totalConsumed == ConsumedIn(txs, r.userId)
    && LastOf(txs, r.userId).Some?
    && LastOf(txs, r.userId).value.creditsAfter == r.credits
  }

  /**
   * The ledger invariant: every record is keyed by its user, its totals are the
   * sums of its user's log entries, balance is purchased minus consumed and equals
   * the newest entry's `credits_after`; every log entry belongs to a user with a
   * record and is arithmetically balanced.
   */
  predicate LedgerInvariant(accounts: map<string, UserCredits>, txs: seq<Transaction>) {
    && (forall u :: u in accounts ==> accounts[u].userId == u && RecordMatchesLog(accounts[u], txs))
    && (forall i :: 0 <= i < |txs| ==> txs[i].userId in accounts && EntryBalanced(txs[i]))
  }

  /** No balance is negative. */
  predicate NonNegative(accounts: map<string, UserCredits>) {
    forall u :: u in accounts ==> accounts[u].credits >= 0
  }

  /**
   * Replacing one user's record while appending one balanced entry of that user
   * keeps the invariant, provided the new record agrees with the extended log.
   */
  lemma UpdateKeepsInvariant(accounts: map<string, UserCredits>, txs: seq<Transaction>, r: UserCredits, t: Transaction)
    requires LedgerInvariant(accounts, txs)
    requires t.userId == r.userId && EntryBalanced(t)
    requires r.credits == r.totalPurchased - r.totalConsumed && t.creditsAfter == r.credits
    requires r.totalPurchased == PurchasedIn(txs, r.userId) + (if t.kind == Purchase then t.amount else 0)
    requires r.totalConsumed == ConsumedIn(txs, r.userId) + (if t.kind == Consumption then t.amount else 0)
    ensures LedgerInvariant(accounts[r.userId := r], txs + [t])
  {
    var accounts' := accounts[r.userId := r];
    var txs' := txs + [t];
    AppendTransaction(txs, t);
    forall u | u in accounts' ensures accounts'[u].userId == u && RecordMatchesLog(accounts'[u], txs') {
      if u != r.userId {
        assert accounts'[u] == accounts[u];
      }
    }
    forall i | 0 <= i < |txs'| ensures txs'[i].userId in accounts' && EntryBalanced(txs'[i]) {
      if i < |txs| {
        assert txs'[i] == txs[i];
      }
    }
  }

  /** The welcome bonus of `initializeUserCredits` keeps the invariant. */
  lemma InitializeKeepsInvariant(accounts: map<string, UserCredits>, txs: seq<Transaction>,
                                 id: nat, userId: string, now: int)
    requires LedgerInvariant(accounts, txs) && userId !in accounts
    ensures LedgerInvariant(accounts[userId := WelcomeRecord(id, userId, now)], txs + [WelcomeTransaction(userId, now)])
    ensures NonNegative(accounts) ==> NonNegative(accounts[userId := WelcomeRecord(id, userId, now)])
  {
    AbsentUser(txs, userId);
    UpdateKeepsInvariant(accounts, txs, WelcomeRecord(id, userId, now), WelcomeTransaction(userId, now));
  }

  /** `addCredits` keeps the invariant, and keeps balances non-negative when it adds a non-negative amount. */
  lemma AddKeepsInvariant(accounts: map<string, UserCredits>, txs: seq<Transaction>, id: nat, userId: string,
                          credits: int, packageType: string, pricePaid: int, description: string, now: int)
    requires LedgerInvariant(accounts, txs)
    ensures var base := if userId in accounts then accounts[userId] else EmptyRecord(id, userId, now);
      && LedgerInvariant(accounts[userId := Credited(base, credits, now)],
           txs + [PurchaseTransaction(userId, credits, base.credits, packageType, pricePaid, description, now)])
      && (NonNegative(accounts) && credits >= 0 ==> NonNegative(accounts[userId := Credited(base, credits, now)]))
  {
    if userId !in accounts {
      AbsentUser(txs, userId);
    }
    var base := if userId in accounts then accounts[userId] else EmptyRecord(id, userId, now);
    UpdateKeepsInvariant(accounts, txs, Credited(base, credits, now),
                         PurchaseTransaction(userId, credits, base.credits, packageType, pricePaid, description, now));
  }

  /** A covered `consumeCredits` keeps the invariant and never drives the balance below zero. */
  lemma ConsumeKeepsInvariant(accounts: map<string, UserCredits>, txs: seq<Transaction>, userId: string,
                              credits: int, scanType: string, scanUrl: string, description: string, now: int)
    requires LedgerInvariant(accounts, txs)
    requires userId in accounts && accounts[userId].credits >= credits
    ensures var r := accounts[userId];
      && LedgerInvariant(accounts[userId := Debited(r, credits, now)],
           txs + [ConsumptionTransaction(userId, credits, r.credits, scanType, scanUrl, description, now)])
      && (NonNegative(accounts) ==> NonNegative(accounts[userId := Debited(r, credits, now)]))
  {
    var r := accounts[userId];
    UpdateKeepsInvariant(accounts, txs, Debited(r, credits, now),
                         ConsumptionTransaction(userId, credits, r.credits, scanType, scanUrl, description, now));
  }

  /**
   * `getCreditStats` on a user's record (if any) and the user's transactions in
   * the ascending order `collect()` returns them. As written, `last_purchase` and
   * `last_scan` read element 0 of that order: the OLDEST entry of each kind.
   */
  function CreditStatsAsWritten(record: Option<UserCredits>, txs: seq<Transaction>, now: int): (s: CreditStats)
    ensures s.totalPurchases + s.totalScans == |txs|
  {
    var purchases := Filter(txs, IsPurchase);
    var consumptions := Filter(txs, IsConsumption);
    FilterSplits(txs);
    var recent := Filter(consumptions, (t: Transaction) => t.createdAt > now - ThirtyDays);
    CreditStats(
      if record.Some? then record.value.credits else 0,
      if record.Some? then record.value.totalPurchased else 0,
      if record.Some? then record.value.totalConsumed else 0,
      |purchases|, |consumptions|, |recent|, |recent|,
      if |purchases| > 0 then Some(purchases[0].createdAt) else None,
      if |consumptions| > 0 then Some(consumptions[0].createdAt) else None)
  }

  /** The statistics with `last_purchase` and `last_scan` taken from the newest entry of each kind. */
  function CreditStatsOf(record: Option<UserCredits>, txs: seq<Transaction>, now: int): (s: CreditStats)
    ensures s.totalPurchases == |Filter(txs, IsPurchase)|
    ensures s.totalScans == |Filter(txs, IsConsumption)|
    ensures s.totalPurchases + s.totalScans == |txs|
    ensures s.recentScans30d <= s.totalScans
    ensures s.lastPurchase.Some? <==> exists t :: t in txs && t.kind == Purchase
    ensures s.lastPurchase.Some? ==>
              exists i :: (0 <= i < |txs| && txs[i].kind == Purchase && txs[i].createdAt == s.lastPurchase.value
                           && forall j :: i < j < |txs| ==> txs[j].kind != Purchase)
  {
    var purchases := Filter(txs, IsPurchase);
    var consumptions := Filter(txs, IsConsumption);
    FilterSplits(txs);
    var recent := Filter(consumptions, (t: Transaction) => t.createdAt > now - ThirtyDays);
    var lastP := NewestOfKind(txs, Purchase);
    CreditStats(
      if record.Some? then record.value.credits else 0,
      if record.Some? then record.value.totalPurchased else 0,
      if record.Some? then record.value.totalConsumed else 0,
      |purchases|, |consumptions|, |recent|, |recent|,
      if lastP.Some? then Some(lastP.value.createdAt) else None,
      var lastC := NewestOfKind(txs, Consumption); if lastC.Some? then Some(lastC.value.createdAt) else None)
  }

  /** The last entry of kind `k` in `txs`. */
  function NewestOfKind(txs: seq<Transaction>, k: TransactionType): (r: Option<Transaction>)
    ensures r.Some? <==> exists t :: t in txs && t.kind == k
    ensures r.Some? ==>
              exists i :: (0 <= i < |txs| && txs[i] == r.value && txs[i].kind == k
                           && forall j :: i < j < |txs| ==> txs[j].kind != k)
  {
    if |txs| == 0 then None
    else if txs[|txs| - 1].kind == k then Some(txs[|txs| - 1])
    else
      var r := NewestOfKind(txs[..|txs| - 1], k);
      assert forall t :: t in txs ==> t in txs[..|txs| - 1] || t == txs[|txs| - 1];
      r
  }

  /** Every transaction is a purchase or a consumption, never both. */
  lemma {:induction false} FilterSplits(txs: seq<Transaction>)
    ensures |Filter(txs, IsPurchase)| + |Filter(txs, IsConsumption)| == |txs|
  {
    if |txs| > 0 {
      FilterSplits(txs[1..]);
    }
  }

  /** Two purchases at different times show that the as-written `last_purchase` is the earlier one. */
  lemma LastPurchaseIsOldest(u: string)
    ensures var early := PurchaseTransaction(u, 1, 0, "starter", 500, "", 1);
      var late := PurchaseTransaction(u, 5, 1, "growth", 2000, "", 2);
      && CreditStatsAsWritten(None, [early, late], 0).lastPurchase == Some(1)
      && CreditStatsOf(None, [early, late], 0).lastPurchase == Some(2)
  {
    var early := PurchaseTransaction(u, 1, 0, "starter", 500, "", 1);
    var late := PurchaseTransaction(u, 5, 1, "growth", 2000, "", 2);
    var txs := [early, late];
    assert Filter(txs, IsPurchase) == txs by {
      assert Filter(txs[1..], IsPurchase) == [late];
    }
    assert NewestOfKind(txs, Purchase) == Some(late);
  }

  /** The corrected statistics differ from the statistics as written only in `last_purchase` and `last_scan`. */
  lemma {:induction false} AsWrittenDiffersOnlyInDates(record: Option<UserCredits>, txs: seq<Transaction>, now: int)
    ensures var fixed := CreditStatsOf(record, txs, now);
      CreditStatsAsWritten(record, txs, now) == fixed.(lastPurchase := CreditStatsAsWritten(record, txs, now).lastPurchase,
                                                       lastScan := CreditStatsAsWritten(record, txs, now).lastScan)
  {
  }

  /** The two tables `user_credits` and `credit_transactions`. */
  class Ledger {
    var accounts: map<string, UserCredits>
    var transactions: seq<Transaction>
    var nextId: nat

    ghost predicate Valid()
      reads this
    {
      && LedgerInvariant(accounts, transactions)
      && (forall u :: u in accounts ==> accounts[u].id < nextId)
      && (forall u, v :: u in accounts && v in accounts && u != v ==> accounts[u].id != accounts[v].id)
    }

    constructor ()
      ensures Valid() && NonNegative(accounts)
      ensures accounts == map[] && transactions == []
    {
      accounts := map[];
      transactions := [];
      nextId := 0;
    }

    /**
     * `initializeUserCredits`: a user without a record gets one with the one-credit
     * welcome bonus and a matching purchase entry; otherwise nothing changes and
     * the existing record's id is returned.
     */
    method InitializeUserCredits(userId: string, now: int) returns (id: nat)
      requires Valid()
      modifies this
      ensures Valid()
      ensures NonNegative(old(accounts)) ==> NonNegative(accounts)
      ensures userId in old(accounts) ==>
        && id == old(accounts)[userId].id
        && accounts == old(accounts) && transactions == old(transactions) && nextId == old(nextId)
      ensures userId !in old(accounts) ==>
        && id == old(nextId) && nextId == old(nextId) + 1
        && accounts == old(accounts)[userId := WelcomeRecord(id, userId, now)]
        && transactions == old(transactions) + [WelcomeTransaction(userId, now)]
      ensures userId in accounts && accounts[userId].id == id
    {
      if userId in accounts {
        id := accounts[userId].id;
        return;
      }
      InitializeKeepsInvariant(accounts, transactions, nextId, userId, now);
      id := nextId;
      accounts := accounts[userId := WelcomeRecord(id, userId, now)];
      transactions := transactions + [WelcomeTransaction(userId, now)];
      nextId := nextId + 1;
    }

    /**
     * `addCredits`: creates a zero record if the user has none, raises the balance
     * and `total_purchased` by `credits`, appends the purchase entry and returns the
     * new balance.
     */
    method AddCredits(userId: string, credits: int, packageType: string, pricePaid: int,
                      description: string, now: int) returns (newBalance: int)
      requires Valid()
      modifies this
      ensures Valid()
      ensures NonNegative(old(accounts)) && credits >= 0 ==> NonNegative(accounts)
      ensures var base := if userId in old(accounts) then old(accounts)[userId] else EmptyRecord(old(nextId), userId, now);
        && newBalance == base.credits + credits
        && accounts == old(accounts)[userId := Credited(base, credits, now)]
        && transactions == old(transactions)
             + [PurchaseTransaction(userId, credits, base.credits, packageType, pricePaid, description, now)]
      ensures nextId == if userId in old(accounts) then old(nextId) else old(nextId) + 1
      ensures accounts[userId].credits == newBalance
    {
      var base: UserCredits;
      if userId in accounts {
        base := accounts[userId];
      } else {
        base := EmptyRecord(nextId, userId, now);
        nextId := nextId + 1;
      }
      AddKeepsInvariant(accounts, transactions, base.id, userId, credits, packageType, pricePaid, description, now);
      newBalance := base.credits + credits;
      accounts := accounts[userId := Credited(base, credits, now)];
      transactions := transactions
        + [PurchaseTransaction(userId, credits, base.credits, packageType, pricePaid, description, now)];
    }

    /** The condition under which `consumeCredits` does not throw "Insufficient credits". */
    predicate CanConsume(userId: string, credits: int)
      reads this
    {
      userId in accounts && accounts[userId].credits >= credits
    }

    /**
     * `consumeCredits`: fails, changing nothing, when the user has no record or
     * too small a balance; otherwise lowers the balance, raises `total_consumed`,
     * appends the consumption entry and returns the new balance.
     */
    method ConsumeCredits(userId: string, credits: int, scanType: string, scanUrl: string,
                          description: string, now: int) returns (result: ConsumeResult)
      requires Valid()
      modifies this
      ensures Valid()
      ensures NonNegative(old(accounts)) ==> NonNegative(accounts)
      ensures nextId == old(nextId)
      ensures result.InsufficientCredits? <==> !old(CanConsume(userId, credits))
      ensures result.InsufficientCredits? ==> accounts == old(accounts) && transactions == old(transactions)
      ensures result.Consumed? ==> var r := old(accounts)[userId];
        && result.newBalance == r.credits - credits
        && accounts == old(accounts)[userId := Debited(r, credits, now)]
        && transactions == old(transactions)
             + [ConsumptionTransaction(userId, credits, r.credits, scanType, scanUrl, description, now)]
    {
      if userId !in accounts || accounts[userId].credits < credits {
        return InsufficientCredits;
      }
      var r := accounts[userId];
      ConsumeKeepsInvariant(accounts, transactions, userId, credits, scanType, scanUrl, description, now);
      accounts := accounts[userId := Debited(r, credits, now)];
      transactions := transactions
        + [ConsumptionTransaction(userId, credits, r.credits, scanType, scanUrl, description, now)];
      result := Consumed(r.credits - credits);
    }

    /** `getUserCredits`: the record, or an all-zero record stamped `now` when there is none. */
    function UserCreditsView(userId: string, now: int): (r: UserCredits)
      reads this
      ensures userId in accounts ==> r == accounts[userId]
      ensures userId !in accounts ==> r.credits == 0 && r.totalPurchased == 0 && r.totalConsumed == 0
    {
      if userId in accounts then accounts[userId] else EmptyRecord(0, userId, now)
    }

    /**
     * `checkCreditsForScan`, a pure read: three credits for a premium scan, one
     * otherwise, measured against the balance (zero without a record).
     */
    function CheckCreditsForScan(userId: string, scanType: string): (c: ScanCheck)
      reads this
      ensures c.requiredCredits == if scanType == "premium" then PremiumScanCost else BasicScanCost
      ensures c.availableCredits == if userId in accounts then accounts[userId].credits else 0
      ensures c.hasEnoughCredits <==> c.availableCredits >= c.requiredCredits
      ensures c.hasEnoughCredits <==> c.shortfall == 0
      ensures c.availableCredits + c.shortfall >= c.requiredCredits
      ensures c.shortfall > 0 ==> c.availableCredits + c.shortfall == c.requiredCredits
    {
      var required := if scanType == "premium" then PremiumScanCost else BasicScanCost;
      var available := if userId in accounts then accounts[userId].credits else 0;
      ScanCheck(available >= required, available, required,
                if required - available > 0 then required - available else 0)
    }

    /** The check agrees with the debit: enough credits exactly when consuming the required amount succeeds. */
    lemma CheckMatchesConsume(userId: string, scanType: string)
      requires Valid()
      ensures CheckCreditsForScan(userId, scanType).hasEnoughCredits
         <==> CanConsume(userId, CheckCreditsForScan(userId, scanType).requiredCredits)
    {
      var req := CheckCreditsForScan(userId, scanType).requiredCredits;
      if userId !in accounts {
        assert !CanConsume(userId, req);
      }
    }

    /** The user's entries of the requested type (an empty type string selects all). */
    predicate Selected(t: Transaction, userId: string, kind: Option<string>) {
      t.userId == userId && (kind.Some? && kind.value != "" ==> TypeName(t.kind) == kind.value)
    }

    /** The selected entries in insertion order. */
    function TransactionsOf(userId: string, kind: Option<string>): seq<Transaction>
      reads this
    {
      Filter(transactions, (t: Transaction) => Selected(t, userId, kind))
    }

    /**
     * `getTransactionHistory`: the user's newest entries (of the requested type, if
     * one is given), at most `limit` of them, 50 when `limit` is absent or zero.
     */
    function TransactionHistory(userId: string, limit: Option<nat>, kind: Option<string>): (r: seq<Transaction>)
      reads this
      ensures |r| <= EffectiveLimit(limit)
      ensures forall t :: t in r ==> t in transactions && t.userId == userId
      ensures kind.Some? && kind.value != "" ==> forall t :: t in r ==> TypeName(t.kind) == kind.value
      ensures |TransactionsOf(userId, kind)| <= EffectiveLimit(limit) ==>
        forall t :: t in TransactionsOf(userId, kind) ==> t in r
      ensures |r| <= |TransactionsOf(userId, kind)|
      ensures forall i :: 0 <= i < |r| ==> r[i] == TransactionsOf(userId, kind)[|TransactionsOf(userId, kind)| - 1 - i]
      ensures var f := TransactionsOf(userId, kind);
        |r| == if EffectiveLimit(limit) < |f| then EffectiveLimit(limit) else |f|
    {
      NewestFirst(transactions, (t: Transaction) => Selected(t, userId, kind), limit)
    }

    /** `getCreditStats` for one user at time `now`. */
    function Stats(userId: string, now: int): (s: CreditStats)
      reads this
      ensures s.totalPurchases + s.totalScans == |TransactionsOf(userId, None)|
      ensures userId in accounts ==> s.currentBalance == accounts[userId].credits
      ensures s.totalPurchases == |Filter(TransactionsOf(userId, None), IsPurchase)|
      ensures s.lastPurchase.Some? <==> exists t :: t in TransactionsOf(userId, None) && t.kind == Purchase
      ensures var written := CreditStatsAsWritten(if userId in accounts then Some(accounts[userId]) else None,
                                                  TransactionsOf(userId, None), now);
        written == s.(lastPurchase := written.lastPurchase, lastScan := written.lastScan)
    {
      AsWrittenDiffersOnlyInDates(if userId in accounts then Some(accounts[userId]) else None, TransactionsOf(userId, None), now);
      CreditStatsOf(if userId in accounts then Some(accounts[userId]) else None, TransactionsOf(userId, None), now)
    }
  }
}
