/** The coupon engine of assets/js/coupon.js: the coupon catalogue, lookup by
    code, the ordered validity checks, the discount of each coupon type, the
    per-user usage counters, and the sorted list of offers shown to a user.
    Dates are integer timestamps and amounts exact reals; the current user is
    `Some(email)` of the logged-in account or `None`. */
module Coupons {
  import opened Wrappers
  import opened Seqs
  import opened Fetch
  import JsText

  datatype Kind = Percentage | Fixed | Shipping | OtherKind(name: string)

  datatype Coupon = Coupon(
    code: string,
    kind: Kind,
    value: real,
    maxDiscount: Option<real>,
    minOrderAmount: real,
    usageLimit: int,
    isActive: bool,
    validFrom: int,
    validUntil: int,
    description: string)

  /** The outcome messages, one tag per distinct text of the source. */
  datatype Message =
    | NotFound
    | Cancelled
    | NotYetValid(from: int)
    | Expired
    | BelowMinimum(minimum: real)
    | LimitReached
    | Usable
    | Applied

  datatype Validation = Validation(valid: bool, message: Message, coupon: Option<Coupon>)

  datatype ApplyResult = ApplyResult(success: bool, message: Message, discount: real, coupon: Option<Coupon>)

  /** `maxDiscount` used as a condition: present and non-zero. */
  predicate Truthy(x: Option<real>) {
    x.Some? && x.value != 0.0
  }

  function Min(a: real, b: real): real {
    if a <= b then a else b
  }

  function Max0(a: real): real {
    if a >= 0.0 then a else 0.0
  }

  predicate InWindow(c: Coupon, now: int) {
    c.validFrom <= now <= c.validUntil
  }

  function ActiveAt(now: int): Coupon -> bool {
    (c: Coupon) => c.isActive && InWindow(c, now)
  }

  /** `getActiveCoupons`: the active coupons whose window contains `now`, both
      ends included, in catalogue order. */
  function ActiveCoupons(coupons: seq<Coupon>, now: int): (r: seq<Coupon>)
    ensures forall i :: 0 <= i < |r| ==> r[i] in coupons && r[i].isActive && r[i].validFrom <= now <= r[i].validUntil
    ensures forall i :: 0 <= i < |coupons| && coupons[i].isActive && InWindow(coupons[i], now) ==> coupons[i] in r
    ensures SelectedAt(r, coupons, Positions(ActiveAt(now), coupons))
  {
    FilterAtPositions(ActiveAt(now), coupons);
    Filter(ActiveAt(now), coupons)
  }

  /** Codes compare after upper-casing both sides. */
  predicate SameCode(a: string, b: string) {
    JsText.ToUpper(a) == JsText.ToUpper(b)
  }

  function MatchesActive(code: string): Coupon -> bool {
    (c: Coupon) => SameCode(c.code, code) && c.isActive
  }

  /** `getCouponByCode`: the first ACTIVE coupon whose code matches, ignoring case. */
  function GetCouponByCode(coupons: seq<Coupon>, code: string): (r: Option<Coupon>)
    ensures r.Some? ==> r.value in coupons && r.value.isActive && SameCode(r.value.code, code)
    ensures r.Some? ==> exists i :: 0 <= i < |coupons| && coupons[i] == r.value &&
                          forall j :: 0 <= j < i ==> !(SameCode(coupons[j].code, code) && coupons[j].isActive)
    ensures r.None? <==> forall i :: 0 <= i < |coupons| ==> !(SameCode(coupons[i].code, code) && coupons[i].isActive)
  {
    Find(MatchesActive(code), coupons)
  }

  /** `userUsage[code] || 0`. */
  function UsedCount(usage: map<string, int>, code: string): int {
    if code in usage then usage[code] else 0
  }

  function Rejected(m: Message): Validation {
    Validation(false, m, None)
  }

  /** `validateCoupon`: the checks in source order, the first failure deciding. */
  function ValidateCoupon(coupons: seq<Coupon>, code: string, orderAmount: real, now: int, usage: map<string, int>): (r: Validation)
    ensures var f := GetCouponByCode(coupons, code);
      r.valid <==> f.Some? && InWindow(f.value, now) && orderAmount >= f.value.minOrderAmount
                   && UsedCount(usage, f.value.code) < f.value.usageLimit
    ensures r.valid ==> r.coupon == GetCouponByCode(coupons, code) && r.message == Usable
    ensures !r.valid ==> r.coupon.None?
    ensures r.message == NotFound <==> GetCouponByCode(coupons, code).None?
    ensures r.message != Cancelled
    ensures var f := GetCouponByCode(coupons, code);
      r.message.NotYetValid? <==> f.Some? && now < f.value.validFrom
    ensures var f := GetCouponByCode(coupons, code);
      r.message == Expired <==> f.Some? && f.value.validFrom <= now && f.value.validUntil < now
    ensures var f := GetCouponByCode(coupons, code);
      r.message.BelowMinimum? <==> f.Some? && InWindow(f.value, now) && orderAmount < f.value.minOrderAmount
    ensures var f := GetCouponByCode(coupons, code);
      r.message == LimitReached <==> f.Some? && InWindow(f.value, now) && orderAmount >= f.value.minOrderAmount
                                     && UsedCount(usage, f.value.code) >= f.value.usageLimit
  {
    match GetCouponByCode(coupons, code)
    case None => Rejected(NotFound)
    case Some(c) =>
      if !c.isActive then Rejected(Cancelled)
      else if now < c.validFrom then Rejected(NotYetValid(c.validFrom))
      else if now > c.validUntil then Rejected(Expired)
      else if orderAmount < c.minOrderAmount then Rejected(BelowMinimum(c.minOrderAmount))
      else if UsedCount(usage, c.code) >= c.usageLimit then Rejected(LimitReached)
      else Validation(true, Usable, Some(c))
  }

  /** `calculateDiscount`: the discount of the coupon's type, never negative. */
  function CalculateDiscount(coupon: Option<Coupon>, orderAmount: real, shippingFee: real): (r: real)
    ensures r >= 0.0
    ensures coupon.None? || orderAmount <= 0.0 ==> r == 0.0
    ensures coupon.Some? && orderAmount > 0.0 && coupon.value.kind == Percentage ==>
      var c := coupon.value;
      var raw := orderAmount * c.value / 100.0;
      r == Max0(if Truthy(c.maxDiscount) then Min(raw, c.maxDiscount.value) else raw)
    ensures coupon.Some? && orderAmount > 0.0 && coupon.value.kind == Fixed ==>
      r == Max0(Min(coupon.value.value, orderAmount)) && r <= orderAmount
    ensures coupon.Some? && orderAmount > 0.0 && coupon.value.kind == Shipping ==>
      var c := coupon.value;
      r == Max0(if Truthy(c.maxDiscount) then Min(shippingFee, c.maxDiscount.value) else shippingFee)
      && r <= Max0(shippingFee)
    ensures coupon.Some? && coupon.value.kind.OtherKind? ==> r == 0.0
  {
    if coupon.None? || orderAmount <= 0.0 then 0.0
    else
      var c := coupon.value;
      var discount :=
        match c.kind
        case Percentage =>
          var d := orderAmount * c.value / 100.0;
          if Truthy(c.maxDiscount) && d > c.maxDiscount.value then c.maxDiscount.value else d
        case Fixed =>
          if c.value > orderAmount then orderAmount else c.value
        case Shipping =>
          Min(shippingFee, if Truthy(c.maxDiscount) then c.maxDiscount.value else shippingFee)
        case OtherKind(_) => 0.0;
      if discount >= 0.0 then discount else 0.0
  }

  /** A percentage discount is at most the coupon's share of the order and at
      most a truthy positive cap. */
  lemma PercentageBounds(c: Coupon, orderAmount: real)
    requires c.kind == Percentage && orderAmount > 0.0 && c.value >= 0.0
    ensures CalculateDiscount(Some(c), orderAmount, 0.0) <= orderAmount * c.value / 100.0
    ensures Truthy(c.maxDiscount) && c.maxDiscount.value > 0.0 ==>
      CalculateDiscount(Some(c), orderAmount, 0.0) <= c.maxDiscount.value
  {
    assert orderAmount * c.value >= 0.0;
  }

  /** The shipping-type discount listed with the default fee of zero is zero. */
  lemma ShippingCouponWithoutFee(c: Coupon, orderAmount: real)
    requires c.kind == Shipping
    ensures CalculateDiscount(Some(c), orderAmount, 0.0) == 0.0
  {
  }

  /** A coupon that has just been used for the last time is then rejected with
      the usage-limit message, all else equal. */
  lemma LastUseExhausts(coupons: seq<Coupon>, code: string, orderAmount: real, now: int, usage: map<string, int>)
    requires ValidateCoupon(coupons, code, orderAmount, now, usage).valid
    requires var c := GetCouponByCode(coupons, code).value; UsedCount(usage, c.code) + 1 >= c.usageLimit
    ensures var c := GetCouponByCode(coupons, code).value;
      ValidateCoupon(coupons, code, orderAmount, now, usage[c.code := UsedCount(usage, c.code) + 1]).message == LimitReached
  {
  }

  /** Without recorded usage the limit check rejects only a coupon whose limit is
      not positive. */
  lemma AnonymousUsageNeverLimits(coupons: seq<Coupon>, code: string, orderAmount: real, now: int)
    requires ValidateCoupon(coupons, code, orderAmount, now, map[]).message == LimitReached
    ensures GetCouponByCode(coupons, code).value.usageLimit <= 0
  {
  }

  /** An expired coupon reports expiry even when the order is also below its
      minimum: the date checks come first. */
  lemma ExpiryBeforeMinimum(coupons: seq<Coupon>, code: string, orderAmount: real, now: int, usage: map<string, int>)
    requires GetCouponByCode(coupons, code).Some?
    requires var c := GetCouponByCode(coupons, code).value; c.validFrom <= now && now > c.validUntil && orderAmount < c.minOrderAmount
    ensures ValidateCoupon(coupons, code, orderAmount, now, usage).message == Expired
  {
  }

  datatype Headline = PercentOff(percent: real, cap: Option<real>) | AmountOff(amount: real) | FreeShipping | Custom(text: string)

  /** `getCouponDescription`: empty for no coupon; otherwise a headline by type
      and, for a positive minimum, the minimum-order suffix. */
  datatype Description = NoDescription | Described(headline: Headline, minimumOrder: Option<real>)

  function Describe(coupon: Option<Coupon>): (d: Description)
    ensures coupon.None? <==> d == NoDescription
    ensures coupon.Some? ==> (d.minimumOrder == if coupon.value.minOrderAmount > 0.0 then Some(coupon.value.minOrderAmount) else None)
    ensures coupon.Some? && coupon.value.kind == Percentage ==>
      d.headline == PercentOff(coupon.value.value, if Truthy(coupon.value.maxDiscount) then coupon.value.maxDiscount else None)
    ensures coupon.Some? && coupon.value.kind == Fixed ==> d.headline == AmountOff(coupon.value.value)
    ensures coupon.Some? && coupon.value.kind == Shipping ==> d.headline == FreeShipping
    ensures coupon.Some? && coupon.value.kind.OtherKind? ==> d.headline == Custom(coupon.value.description)
  {
    match coupon
    case None => NoDescription
    case Some(c) =>
      var headline :=
        match c.kind
        case Percentage => PercentOff(c.value, if Truthy(c.maxDiscount) then c.maxDiscount else None)
        case Fixed => AmountOff(c.value)
        case Shipping => FreeShipping
        case OtherKind(_) => Custom(c.description);
      Described(headline, if c.minOrderAmount > 0.0 then Some(c.minOrderAmount) else None)
  }

  /** One entry of `getAvailableCoupons`: the coupon with its eligibility. */
  datatype Offer = Offer(coupon: Coupon, description: Description, canUse: bool, reason: Option<Message>, usageLeft: int, discount: real)

  function MakeOffer(coupons: seq<Coupon>, c: Coupon, total: real, now: int, usage: map<string, int>): Offer {
    var v := ValidateCoupon(coupons, c.code, total, now, usage);
    Offer(c, Describe(Some(c)), v.valid, if v.valid then None else Some(v.message),
          c.usageLimit - UsedCount(usage, c.code),
          if v.valid then CalculateDiscount(Some(c), total, 0.0) else 0.0)
  }

  /** The comparator of the sort: usable first, then the larger discount. */
  predicate RanksBefore(a: Offer, b: Offer) {
    (a.canUse && !b.canUse) || (a.canUse == b.canUse && a.discount > b.discount)
  }

  predicate SortedOffers(s: seq<Offer>) {
    forall i, j :: 0 <= i < j < |s| ==> !RanksBefore(s[j], s[i])
  }

  /** "Does not rank before" is transitive, as it is for any lexicographic order. */
  lemma NotBeforeTransitive(a: Offer, b: Offer, c: Offer)
    requires !RanksBefore(a, b) && !RanksBefore(b, c)
    ensures !RanksBefore(a, c)
  {
  }

  /** Insert after every entry that ranks strictly before `x`, so that equal
      entries keep their order. */
  function InsertOffer(x: Offer, s: seq<Offer>): (r: seq<Offer>)
    ensures multiset(r) == multiset(s) + multiset{x}
  {
    if s == [] then [x]
    else if RanksBefore(s[0], x) then
      assert s == [s[0]] + s[1..];
      [s[0]] + InsertOffer(x, s[1..])
    else
      [x] + s
  }

  lemma {:induction false} InsertKeepsSorted(x: Offer, s: seq<Offer>)
    requires SortedOffers(s)
    ensures SortedOffers(InsertOffer(x, s))
  {
    if s == [] {
    } else if RanksBefore(s[0], x) {
      var t := InsertOffer(x, s[1..]);
      InsertKeepsSorted(x, s[1..]);
      forall k | 0 <= k < |t| ensures !RanksBefore(t[k], s[0]) {
        assert t[k] in multiset(s[1..]) + multiset{x};
        if t[k] != x {
          assert t[k] in s[1..];
        }
      }
      assert InsertOffer(x, s) == [s[0]] + t;
    } else {
      forall k | 0 <= k < |s| ensures !RanksBefore(s[k], x) {
        if k > 0 {
          NotBeforeTransitive(s[k], s[0], x);
        }
      }
      assert InsertOffer(x, s) == [x] + s;
    }
  }

  /** The sort of `getAvailableCoupons`. */
  function SortOffers(s: seq<Offer>): (r: seq<Offer>)
    ensures multiset(r) == multiset(s)
    ensures SortedOffers(r)
  {
    if s == [] then []
    else
      assert s == [s[0]] + s[1..];
      InsertKeepsSorted(s[0], SortOffers(s[1..]));
      InsertOffer(s[0], SortOffers(s[1..]))
  }

  class CouponEngine {
    /** `COUPONS_DATA`. */
    var coupons: seq<Coupon>
    /** The stored copy of the last catalogue loaded. */
    var cache: seq<Coupon>
    /** The stored usage map of each user, by e-mail. */
    var usageByUser: map<string, map<string, int>>

    constructor (cached: seq<Coupon>, usage: map<string, map<string, int>>)
      ensures coupons == [] && cache == cached && usageByUser == usage
    {
      coupons := [];
      cache := cached;
      usageByUser := usage;
    }

    /** `loadCoupons` once its `fetch` has settled: take and cache an OK array,
        otherwise fall back to the cached copy. */
    method LoadCoupons(response: Fetched<Coupon>) returns (loaded: seq<Coupon>)
      modifies this
      ensures Delivered(response) ==> coupons == response.body.items && cache == response.body.items
      ensures !Delivered(response) ==> coupons == old(cache) && cache == old(cache)
      ensures loaded == coupons && usageByUser == old(usageByUser)
    {
      if Delivered(response) {
        coupons := response.body.items;
        cache := response.body.items;
      } else {
        coupons := cache;
      }
      loaded := coupons;
    }

    /** `getUserCouponUsage`: `{}` without a user or without a stored map. */
    function UsageOf(user: Option<string>): (m: map<string, int>)
      reads this
      ensures user.None? ==> m == map[]
      ensures user.Some? && user.value in usageByUser ==> m == usageByUser[user.value]
      ensures user.Some? && user.value !in usageByUser ==> m == map[]
    {
      match user
      case None => map[]
      case Some(email) => if email in usageByUser then usageByUser[email] else map[]
    }

    /** `saveUserCouponUsage`: a no-op returning false without a user. */
    method SaveUsage(user: Option<string>, usage: map<string, int>) returns (saved: bool)
      modifies this
      ensures saved == user.Some?
      ensures user.None? ==> usageByUser == old(usageByUser)
      ensures user.Some? ==> usageByUser == old(usageByUser)[user.value := usage]
      ensures coupons == old(coupons) && cache == old(cache)
    {
      match user {
        case None => saved := false;
        case Some(email) =>
          usageByUser := usageByUser[email := usage];
          saved := true;
      }
    }

    /** `validateCoupon` for the current user. */
    function Validate(code: string, orderAmount: real, now: int, user: Option<string>): (r: Validation)
      reads this
      ensures r == ValidateCoupon(coupons, code, orderAmount, now, UsageOf(user))
    {
      ValidateCoupon(coupons, code, orderAmount, now, UsageOf(user))
    }

    /** `applyCoupon`: validate; on failure change nothing; on success compute
        the discount and count one more use of the coupon's own code. */
    method ApplyCoupon(code: string, orderAmount: real, shippingFee: real, now: int, user: Option<string>) returns (r: ApplyResult)
      modifies this
      ensures coupons == old(coupons) && cache == old(cache)
      ensures var v := ValidateCoupon(old(coupons), code, orderAmount, now, old(UsageOf(user)));
        !v.valid ==> r == ApplyResult(false, v.message, 0.0, None) && usageByUser == old(usageByUser)
      ensures var v := ValidateCoupon(old(coupons), code, orderAmount, now, old(UsageOf(user)));
        v.valid ==> r == ApplyResult(true, Applied, CalculateDiscount(v.coupon, orderAmount, shippingFee), v.coupon)
      ensures r.success && user.Some? ==>
        var key := r.coupon.value.code;
        usageByUser == old(usageByUser)[user.value := old(UsageOf(user))[key := old(UsedCount(UsageOf(user), key)) + 1]]
      ensures r.success ==>
        UsedCount(UsageOf(user), r.coupon.value.code) == old(UsedCount(UsageOf(user), r.coupon.value.code)) + (if user.Some? then 1 else 0)
      ensures user.None? ==> usageByUser == old(usageByUser)
    {
      var v := ValidateCoupon(coupons, code, orderAmount, now, UsageOf(user));
      if !v.valid {
        return ApplyResult(false, v.message, 0.0, None);
      }
      var c := v.coupon.value;
      var discount := CalculateDiscount(v.coupon, orderAmount, shippingFee);
      var usage := UsageOf(user);
      usage := usage[c.code := UsedCount(usage, c.code) + 1];
      var _ := SaveUsage(user, usage);
      r := ApplyResult(true, Applied, discount, v.coupon);
    }

    /** `getAvailableCoupons` against the cart total `total`. */
    function AvailableCoupons(total: real, now: int, user: Option<string>): (r: seq<Offer>)
      reads this
      ensures |r| == |ActiveCoupons(coupons, now)|
      ensures forall i, j :: 0 <= i < j < |r| && r[j].canUse ==> r[i].canUse
      ensures forall i, j :: 0 <= i < j < |r| && r[i].canUse && r[j].canUse ==> r[i].discount >= r[j].discount
      ensures forall i :: 0 <= i < |r| ==> r[i].coupon in ActiveCoupons(coupons, now)
      ensures forall i :: 0 <= i < |r| ==> r[i].usageLeft == r[i].coupon.usageLimit - UsedCount(UsageOf(user), r[i].coupon.code)
      ensures forall i :: 0 <= i < |r| ==> r[i].canUse == ValidateCoupon(coupons, r[i].coupon.code, total, now, UsageOf(user)).valid
      ensures forall i :: 0 <= i < |r| && (!r[i].canUse || r[i].coupon.kind == Shipping) ==> r[i].discount == 0.0
      ensures forall i :: 0 <= i < |r| ==> FaithfulOffer(coupons, total, now, UsageOf(user), r[i])
      ensures multiset(r) == multiset(Annotated(coupons, total, now, UsageOf(user)))
      ensures forall c :: c in ActiveCoupons(coupons, now) ==> exists j :: 0 <= j < |r| && r[j].coupon == c
    {
      var r := RankedOffers(coupons, total, now, UsageOf(user));
      SortedOffersOrder(r);
      FaithfulOffersFacts(coupons, total, now, UsageOf(user), r);
      RankedCoversActive(coupons, total, now, UsageOf(user));
      r
    }
  }

  /** A list ordered by the comparator has its usable offers first, and those
      by descending discount. */
  lemma SortedOffersOrder(s: seq<Offer>)
    requires SortedOffers(s)
    ensures forall i, j :: 0 <= i < j < |s| && s[j].canUse ==> s[i].canUse
    ensures forall i, j :: 0 <= i < j < |s| && s[i].canUse && s[j].canUse ==> s[i].discount >= s[j].discount
  {
    forall i, j | 0 <= i < j < |s| ensures s[j].canUse ==> s[i].canUse {
      assert !RanksBefore(s[j], s[i]);
    }
  }

  lemma FaithfulOffersFacts(coupons: seq<Coupon>, total: real, now: int, usage: map<string, int>, r: seq<Offer>)
    requires forall i :: 0 <= i < |r| ==> FaithfulOffer(coupons, total, now, usage, r[i])
    ensures forall i :: 0 <= i < |r| ==> r[i].coupon in ActiveCoupons(coupons, now)
    ensures forall i :: 0 <= i < |r| ==> r[i].usageLeft == r[i].coupon.usageLimit - UsedCount(usage, r[i].coupon.code)
    ensures forall i :: 0 <= i < |r| ==> r[i].canUse == ValidateCoupon(coupons, r[i].coupon.code, total, now, usage).valid
    ensures forall i :: 0 <= i < |r| && (!r[i].canUse || r[i].coupon.kind == Shipping) ==> r[i].discount == 0.0
  {
  }

  /** What each listed offer says about its coupon. */
  ghost predicate FaithfulOffer(coupons: seq<Coupon>, total: real, now: int, usage: map<string, int>, o: Offer) {
    && o.coupon in ActiveCoupons(coupons, now)
    && o.usageLeft == o.coupon.usageLimit - UsedCount(usage, o.coupon.code)
    && o.canUse == ValidateCoupon(coupons, o.coupon.code, total, now, usage).valid
    && o.description == Describe(Some(o.coupon))
    && o.reason == (if o.canUse then None else Some(ValidateCoupon(coupons, o.coupon.code, total, now, usage).message))
    && o.discount == (if o.canUse then CalculateDiscount(Some(o.coupon), total, 0.0) else 0.0)
    && ((!o.canUse || o.coupon.kind == Shipping) ==> o.discount == 0.0)
  }

  function Annotated(coupons: seq<Coupon>, total: real, now: int, usage: map<string, int>): (o: seq<Offer>)
    ensures |o| == |ActiveCoupons(coupons, now)|
    ensures forall i :: 0 <= i < |o| ==> o[i].coupon == ActiveCoupons(coupons, now)[i]
    ensures forall i :: 0 <= i < |o| ==> FaithfulOffer(coupons, total, now, usage, o[i])
  {
    var active := ActiveCoupons(coupons, now);
    var o := seq(|active|, i requires 0 <= i < |active| => MakeOffer(coupons, active[i], total, now, usage));
    assert forall i :: 0 <= i < |o| ==> o[i].coupon == active[i] && FaithfulOffer(coupons, total, now, usage, o[i]) by {
      forall i | 0 <= i < |o| ensures o[i].coupon == active[i] && FaithfulOffer(coupons, total, now, usage, o[i]) {
        MakeOfferFaithful(coupons, active[i], total, now, usage);
      }
    }
    o
  }

  lemma MakeOfferFaithful(coupons: seq<Coupon>, c: Coupon, total: real, now: int, usage: map<string, int>)
    requires c in ActiveCoupons(coupons, now)
    ensures MakeOffer(coupons, c, total, now, usage).coupon == c
    ensures FaithfulOffer(coupons, total, now, usage, MakeOffer(coupons, c, total, now, usage))
  {
  }

  /** The annotated active coupons, sorted by the comparator. */
  function RankedOffers(coupons: seq<Coupon>, total: real, now: int, usage: map<string, int>): (r: seq<Offer>)
    ensures |r| == |ActiveCoupons(coupons, now)|
    ensures multiset(r) == multiset(Annotated(coupons, total, now, usage))
    ensures SortedOffers(r)
    ensures forall i :: 0 <= i < |r| ==> FaithfulOffer(coupons, total, now, usage, r[i])
  {
    var o := Annotated(coupons, total, now, usage);
    var r := SortOffers(o);
    assert |r| == |o| by {
      assert |multiset(r)| == |multiset(o)|;
    }
    forall i | 0 <= i < |r| ensures FaithfulOffer(coupons, total, now, usage, r[i]) {
      assert r[i] in multiset(o);
    }
    r
  }

  /** Sorting loses no coupon: every active coupon has its offer in the list. */
  lemma RankedCoversActive(coupons: seq<Coupon>, total: real, now: int, usage: map<string, int>)
    ensures forall c :: c in ActiveCoupons(coupons, now) ==>
      exists j :: 0 <= j < |RankedOffers(coupons, total, now, usage)| && RankedOffers(coupons, total, now, usage)[j].coupon == c
  {
    PermutationCovers(Annotated(coupons, total, now, usage), RankedOffers(coupons, total, now, usage), ActiveCoupons(coupons, now));
  }

  lemma PermutationCovers(o: seq<Offer>, r: seq<Offer>, active: seq<Coupon>)
    requires multiset(r) == multiset(o) && |o| == |active|
    requires forall i :: 0 <= i < |o| ==> o[i].coupon == active[i]
    ensures forall c :: c in active ==> exists j :: 0 <= j < |r| && r[j].coupon == c
  {
    forall c | c in active ensures exists j :: 0 <= j < |r| && r[j].coupon == c {
      var i :| 0 <= i < |active| && active[i] == c;
      assert o[i] in multiset(r);
      var j :| 0 <= j < |r| && r[j] == o[i];
    }
  }

  /** A worked figure: 10% of 1200 with a cap of 150 is 120. */
  lemma TenPercentOfTwelveHundred()
    ensures CalculateDiscount(Some(Coupon("SAVE10", Percentage, 10.0, Some(150.0), 1000.0, 1, true, 0, 10, "")), 1200.0, 0.0) == 120.0
  {
  }
}
