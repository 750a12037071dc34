/**
 * The `/api/credits` route (app/api/credits/route.ts): GET initialises the caller's
 * ledger entry and reads it back with the price list; POST validates a purchase
 * and delegates the only state change to `addCredits`. The authenticated user id
 * is an input (`None` when authentication fails).
 */
module CreditsRoute {
  import opened Wrappers
  import opened Text
  import opened Credits

  /** The JSON body of a POST: both fields may be absent. */
  datatype PurchaseRequest = PurchaseRequest(packageType: Option<string>, paymentToken: Option<string>)

  /** One entry of the route's own `packages` table (price in US cents). */
  datatype Offer = Offer(credits: nat, priceCents: nat)

  /** What the validation decides before any state change. */
  datatype Decision =
    | Reject(status: nat, error: string)
    | Charge(packageType: string, credits: nat, priceCents: nat, description: string)

  /** The POST response; `amountPaid` is in dollars. */
  datatype PurchaseResponse =
    | Failed(status: nat, error: string)
    | Purchased(creditsAdded: nat, newBalance: int, package: string, amountPaid: real)

  const AuthRequired := "Authentication required"
  const PackageRequired := "Package type is required"
  const InvalidPackage := "Invalid package type"
  const PaymentFailed := "Payment processing failed"
  const InternalError := "Internal server error"
  const DemoToken := "demo_success"

  /** A JavaScript string is truthy exactly when it is present and non-empty. */
  predicate Truthy(s: Option<string>) {
    s.Some? && s.value != ""
  }

  /** The route's `packages` table, looked up by own key. */
  function RouteOffer(key: string): (o: Option<Offer>)
    ensures o.Some? <==> key in PackageKeys
    ensures o.Some? ==>
      o.value.credits == PricingPackage(key).value.credits && o.value.priceCents == PricingPackage(key).value.priceCents
  {
    if key == "starter" then Some(Offer(1, 500))
    else if key == "growth" then Some(Offer(5, 2000))
    else if key == "pro" then Some(Offer(15, 5000))
    else None
  }

  /** The transaction description written for a purchase. */
  function PurchaseDescription(key: string, credits: nat): string {
    "Purchased " + key + " package (" + NatToString(credits) + " credits)"
  }

  /**
   * The POST checks in order: a missing or empty package type, a package type that
   * is not a key of the table, then a payment token other than `demo_success`.
   */
  function Validate(req: PurchaseRequest): (d: Decision)
    ensures !Truthy(req.packageType) ==> d == Reject(400, PackageRequired)
    ensures Truthy(req.packageType) && req.packageType.value !in PackageKeys ==> d == Reject(400, InvalidPackage)
    ensures Truthy(req.packageType) && req.packageType.value in PackageKeys && req.paymentToken != Some(DemoToken)
      ==> d == Reject(402, PaymentFailed)
    ensures d.Charge? <==>
      Truthy(req.packageType) && req.packageType.value in PackageKeys && req.paymentToken == Some(DemoToken)
    ensures d.Charge? ==>
      && d.packageType == req.packageType.value
      && d.credits == PricingPackage(d.packageType).value.credits
      && d.priceCents == PricingPackage(d.packageType).value.priceCents
      && d.description == PurchaseDescription(d.packageType, d.credits)
  {
    if !Truthy(req.packageType) then Reject(400, PackageRequired)
    else
      var key := req.packageType.value;
      match RouteOffer(key)
      case None => Reject(400, InvalidPackage)
      case Some(offer) =>
        if !Truthy(req.paymentToken) || req.paymentToken.value != DemoToken then Reject(402, PaymentFailed)
        else Charge(key, offer.credits, offer.priceCents, PurchaseDescription(key, offer.credits))
  }

  /** The three package prices in cents are whole dollars, so `price / 100` is exact. */
  lemma PricesAreWholeDollars(key: string)
    requires key in PackageKeys
    ensures RouteOffer(key).value.priceCents % 100 == 0
    ensures (RouteOffer(key).value.priceCents as real) / 100.0 == (RouteOffer(key).value.priceCents / 100) as real
  {
  }

  /**
   * POST: a rejected request leaves the ledger alone; an accepted one adds the
   * package's credits at the package's price and reports the new balance.
   */
  method Purchase(ledger: Ledger, userId: Option<string>, bodyRead: bool, req: PurchaseRequest, now: int)
      returns (resp: PurchaseResponse)
    requires ledger.Valid()
    modifies ledger
    ensures ledger.Valid()
    ensures userId.None? ==> resp == Failed(401, AuthRequired)
    ensures userId.Some? && !bodyRead ==> resp == Failed(500, InternalError)
    ensures resp.Failed? ==> ledger.accounts == old(ledger.accounts) && ledger.transactions == old(ledger.transactions)
    ensures userId.Some? && bodyRead && Validate(req).Reject? ==>
      resp == Failed(Validate(req).status, Validate(req).error)
    ensures userId.Some? && bodyRead && Validate(req).Charge? ==>
      var d := Validate(req);
      var u := userId.value;
      var base := if u in old(ledger.accounts) then old(ledger.accounts)[u] else EmptyRecord(old(ledger.nextId), u, now);
      && resp == Purchased(d.credits, base.credits + d.credits, d.packageType, (d.priceCents as real) / 100.0)
      && ledger.accounts == old(ledger.accounts)[u := Credited(base, d.credits, now)]
      && ledger.transactions == old(ledger.transactions)
           + [PurchaseTransaction(u, d.credits, base.credits, d.packageType, d.priceCents, d.description, now)]
  {
    if userId.None? {
      return Failed(401, AuthRequired);
    }
    if !bodyRead {
      return Failed(500, InternalError);
    }
    var d := Validate(req);
    if d.Reject? {
      return Failed(d.status, d.error);
    }
    var newBalance := ledger.AddCredits(userId.value, d.credits, d.packageType, d.priceCents, d.description, now);
    resp := Purchased(d.credits, newBalance, d.packageType, (d.priceCents as real) / 100.0);
  }

  // ---- the lookup as written: `packages[packageType]` on a plain object ----

  /**
   * The property names every plain JavaScript object inherits from
   * `Object.prototype`; each one reads as a truthy function or object.
   */
  const PrototypeKeys: seq<string> := [
    "constructor", "__proto__", "toString", "toLocaleString", "valueOf", "hasOwnProperty",
    "isPrototypeOf", "propertyIsEnumerable", "__defineGetter__", "__defineSetter__",
    "__lookupGetter__", "__lookupSetter__"]

  /** What `packages[key]` yields: an own entry, an inherited member without `credits`, or `undefined`. */
  datatype Lookup = OwnEntry(offer: Offer) | Inherited | Undefined

  function LookupAsWritten(key: string): (l: Lookup)
    ensures l.OwnEntry? <==> key in PackageKeys
    ensures l.Inherited? <==> key in PrototypeKeys
  {
    match RouteOffer(key)
    case Some(o) => OwnEntry(o)
    case None => if key in PrototypeKeys then Inherited else Undefined
  }

  /**
   * The POST decision as written. An inherited member passes the "Invalid package
   * type" check; with the demo token, `addCredits` then receives no `credits`,
   * its argument validator throws and the route answers 500.
   */
  function ValidateAsWritten(req: PurchaseRequest): (d: Decision)
    ensures Truthy(req.packageType) && req.packageType.value in PrototypeKeys ==>
      d.Reject? && d.status != 400
    ensures Truthy(req.packageType) && req.packageType.value !in PrototypeKeys ==> d == Validate(req)
  {
    if !Truthy(req.packageType) then Reject(400, PackageRequired)
    else
      match LookupAsWritten(req.packageType.value)
      case Undefined => Reject(400, InvalidPackage)
      case Inherited =>
        if !Truthy(req.paymentToken) || req.paymentToken.value != DemoToken then Reject(402, PaymentFailed)
        else Reject(500, InternalError)
      case OwnEntry(_) => Validate(req)
  }

  /** The discrepancy: `constructor` is not a package, yet it is not refused as one. */
  lemma PrototypeKeyIsNotRejectedAsInvalid()
    ensures ValidateAsWritten(PurchaseRequest(Some("constructor"), Some(DemoToken))) == Reject(500, InternalError)
    ensures ValidateAsWritten(PurchaseRequest(Some("constructor"), None)) == Reject(402, PaymentFailed)
    ensures Validate(PurchaseRequest(Some("constructor"), Some(DemoToken))) == Reject(400, InvalidPackage)
  {
    assert "constructor" in PrototypeKeys;
    assert "constructor" !in PackageKeys;
  }

  // ---- GET ----

  /** An entry of the price list GET returns; prices and savings in dollars. */
  datatype PriceEntry = PriceEntry(key: string, name: string, credits: nat, price: real,
                                   description: string, savings: Option<real>)

  datatype ScanCosts = ScanCosts(basic: nat, premium: nat)

  const PriceList: seq<PriceEntry> := [
    PriceEntry("starter", "Starter Pack", 1, 5.0, "Perfect for testing our service", None),
    PriceEntry("growth", "Growth Pack", 5, 20.0, "Best value for regular users", Some(5.0)),
    PriceEntry("pro", "Pro Pack", 15, 50.0, "For power users and agencies", Some(25.0))]

  const ListedScanCosts := ScanCosts(1, 3)

  /** Dollars as a real from a whole number of cents. */
  function Dollars(cents: nat): real {
    (cents as real) / 100.0
  }

  /**
   * The price list agrees with `PRICING_PACKAGES` and with the POST table: same
   * keys, names, credits and descriptions, and every dollar amount is the cents
   * amount divided by 100. The listed scan costs are `SCAN_COSTS`.
   */
  lemma PriceListMatchesPackages()
    ensures |PriceList| == |PackageKeys|
    ensures forall i :: 0 <= i < |PriceList| ==>
      var e := PriceList[i];
      var p := PricingPackage(e.key);
      && e.key == PackageKeys[i]
      && p.Some? && RouteOffer(e.key).Some?
      && e.name == p.value.name && e.description == p.value.description
      && e.credits == p.value.credits == RouteOffer(e.key).value.credits
      && e.price == Dollars(p.value.priceCents) && RouteOffer(e.key).value.priceCents == p.value.priceCents
      && (e.savings.Some? <==> p.value.savingsCents.Some?)
      && (e.savings.Some? ==> e.savings.value == Dollars(p.value.savingsCents.value))
    ensures ListedScanCosts.basic == BasicScanCost && ListedScanCosts.premium == PremiumScanCost
  {
  }

  /** The GET response. */
  datatype Overview =
    | Unauthorized
    | Summary(credits: UserCredits, stats: CreditStats, recentTransactions: seq<Transaction>,
               packages: seq<PriceEntry>, scanCosts: ScanCosts)

  /**
   * GET: initialises the caller's record first, so the balance returned is read
   * from a record that exists; returns the ten newest entries and the price list.
   */
  method ReadOverview(ledger: Ledger, userId: Option<string>, now: int) returns (resp: Overview)
    requires ledger.Valid()
    modifies ledger
    ensures ledger.Valid()
    ensures userId.None? <==> resp.Unauthorized?
    ensures userId.None? ==> ledger.accounts == old(ledger.accounts) && ledger.transactions == old(ledger.transactions)
    ensures userId.Some? ==>
      var u := userId.value;
      && u in ledger.accounts
      && (u in old(ledger.accounts) ==>
            ledger.accounts == old(ledger.accounts) && ledger.transactions == old(ledger.transactions))
      && (u !in old(ledger.accounts) ==>
            && ledger.accounts == old(ledger.accounts)[u := WelcomeRecord(old(ledger.nextId), u, now)]
            && ledger.transactions == old(ledger.transactions) + [WelcomeTransaction(u, now)])
      && resp.credits == ledger.accounts[u]
      && resp.stats == ledger.Stats(u, now)
      && resp.recentTransactions == ledger.TransactionHistory(u, Some(10), None)
      && |resp.recentTransactions| <= 10
      && |resp.recentTransactions| == (if 10 < |ledger.TransactionsOf(u, None)| then 10 else |ledger.TransactionsOf(u, None)|)
      && resp.packages == PriceList && resp.scanCosts == ListedScanCosts
  {
    if userId.None? {
      return Unauthorized;
    }
    var u := userId.value;
    var _ := ledger.InitializeUserCredits(u, now);
    resp := Summary(ledger.UserCreditsView(u, now), ledger.Stats(u, now),
                    ledger.TransactionHistory(u, Some(10), None), PriceList, ListedScanCosts);
  }
}
