/** The license information resolver `getLicenseInfo` (js/index.js) and the
    buy-form texts composed from its result.

    A card is the DOM subtree of one `.license-card` or `.marketplace-card`:
    its own classes and attributes, and the elements below it in document
    order. `card.querySelector(".a, .b")` is the first element in that order
    carrying one of the classes; `document.querySelector` over cards is the
    first card in page order. Cards are not nested in one another. */
module License {
  import opened Text

  /** An element below a card: classes, attributes, trimmed-or-not text
      content, and (for a select) its current value. */
  datatype Elem = Elem(classes: set<string>, attrs: map<string, string>, text: string, value: string)

  datatype Card = Card(classes: set<string>, attrs: map<string, string>, elems: seq<Elem>)

  /** The argument of `getLicenseInfo`: a card element, or a plan string. */
  datatype Target = CardRef(card: Card) | PlanId(plan: string)

  datatype LicenseInfo = LicenseInfo(licenseName: string, userCount: string, price: string, periodText: string)

  // Selector lists used by the resolver, as sets of class names.
  const TitleSel: set<string> := {"license-card__title", "marketplace-card__title"}
  const SelectSel: set<string> := {"user-count-select", "marketplace-user-count-select"}
  const OnpremUsersSel: set<string> := {"license-card__subheader-title"}
  const UsersSel: set<string> := {"marketplace-card__subheader-title", "license-card__subheader-title", "marketplace-card__users"}
  const SubpriceSel: set<string> := {"marketplace-card__subheader-subprice"}
  const MarketplacePriceSel: set<string> := {"marketplace-card__price-current", "marketplace-card__subheader-price"}
  const CloudPriceSel: set<string> := {"price-current"}
  const BoxPriceSel: set<string> := {"license-card__subheader-price"}

  const Month: string := "мес"
  const TwelveMonths: string := "12 мес"
  const MonthWord: string := "месяц"
  const UsersSuffix: string := " пользователей"

  /** `getAttribute(name)`, with `None` for null. */
  function Attr(attrs: map<string, string>, name: string): Option<string> {
    if name in attrs then Some(attrs[name]) else None
  }

  /** The element matches a selector list made of class selectors. */
  predicate HasClass(e: Elem, sel: set<string>) {
    e.classes * sel != {}
  }

  /** Element `k` is the first element matching the selector list. */
  ghost predicate IsFirstMatch(elems: seq<Elem>, k: int, sel: set<string>) {
    0 <= k < |elems| && HasClass(elems[k], sel) && forall j :: 0 <= j < k ==> !HasClass(elems[j], sel)
  }

  ghost predicate NoMatch(elems: seq<Elem>, sel: set<string>) {
    forall j :: 0 <= j < |elems| ==> !HasClass(elems[j], sel)
  }

  /** The position `querySelector` returns within a card. */
  function FirstMatch(elems: seq<Elem>, sel: set<string>): (r: Option<nat>)
    ensures r.Some? ==> IsFirstMatch(elems, r.value, sel)
    ensures r.None? <==> NoMatch(elems, sel)
  {
    if elems == [] then None
    else if HasClass(elems[0], sel) then Some(0)
    else match FirstMatch(elems[1..], sel)
      case None => None
      case Some(j) => Some(j + 1)
  }

  /** Trimmed text of the first matching element, or "" when none matches. */
  function TextOrEmpty(card: Card, sel: set<string>): string {
    match FirstMatch(card.elems, sel)
    case None => ""
    case Some(k) => Trim(card.elems[k].text)
  }

  // ---------------------------------------------------------------- lookup

  /** The three ways a plan string locates its card, in the order tried. */
  datatype Lookup = ByLicenseCard | ByMarketplaceCard | ByBuyButton

  predicate IsBuyButtonFor(e: Elem, plan: string) {
    "marketplace-card__buy-btn" in e.classes && Attr(e.attrs, "data-plan") == Some(plan)
  }

  /** `.license-card[data-plan=p]`, `.marketplace-card[data-plan=p]`, and a
      `.marketplace-card` holding a `.marketplace-card__buy-btn[data-plan=p]`. */
  predicate Found(c: Card, how: Lookup, plan: string) {
    match how
    case ByLicenseCard => "license-card" in c.classes && Attr(c.attrs, "data-plan") == Some(plan)
    case ByMarketplaceCard => "marketplace-card" in c.classes && Attr(c.attrs, "data-plan") == Some(plan)
    case ByBuyButton =>
      "marketplace-card" in c.classes && exists k :: 0 <= k < |c.elems| && IsBuyButtonFor(c.elems[k], plan)
  }

  ghost predicate IsFirstCard(doc: seq<Card>, k: int, how: Lookup, plan: string) {
    0 <= k < |doc| && Found(doc[k], how, plan) && forall j :: 0 <= j < k ==> !Found(doc[j], how, plan)
  }

  ghost predicate NoneFound(doc: seq<Card>, how: Lookup, plan: string) {
    forall j :: 0 <= j < |doc| ==> !Found(doc[j], how, plan)
  }

  function FirstCard(doc: seq<Card>, how: Lookup, plan: string): (r: Option<nat>)
    ensures r.Some? ==> IsFirstCard(doc, r.value, how, plan)
    ensures r.None? <==> NoneFound(doc, how, plan)
  {
    if doc == [] then None
    else if Found(doc[0], how, plan) then Some(0)
    else match FirstCard(doc[1..], how, plan)
      case None => None
      case Some(j) => Some(j + 1)
  }

  /** The card a plan string resolves to: the first license card with that
      plan, else the first marketplace card with that plan, else the first
      marketplace card holding a buy button with that plan; nothing when all
      three fail. */
  function FindCard(doc: seq<Card>, plan: string): (r: Option<Card>)
    ensures r.None? <==>
      NoneFound(doc, ByLicenseCard, plan) && NoneFound(doc, ByMarketplaceCard, plan) && NoneFound(doc, ByBuyButton, plan)
    ensures !NoneFound(doc, ByLicenseCard, plan) ==>
      exists k :: IsFirstCard(doc, k, ByLicenseCard, plan) && r == Some(doc[k])
    ensures NoneFound(doc, ByLicenseCard, plan) && !NoneFound(doc, ByMarketplaceCard, plan) ==>
      exists k :: IsFirstCard(doc, k, ByMarketplaceCard, plan) && r == Some(doc[k])
    ensures NoneFound(doc, ByLicenseCard, plan) && NoneFound(doc, ByMarketplaceCard, plan) ==>
      (!NoneFound(doc, ByBuyButton, plan) ==> exists k :: IsFirstCard(doc, k, ByBuyButton, plan) && r == Some(doc[k]))
  {
    match FirstCard(doc, ByLicenseCard, plan)
    case Some(k) => Some(doc[k])
    case None =>
      match FirstCard(doc, ByMarketplaceCard, plan)
      case Some(k) => Some(doc[k])
      case None =>
        match FirstCard(doc, ByBuyButton, plan)
        case Some(k) => Some(doc[k])
        case None => None
  }

  // ---------------------------------------------------------------- fields

  predicate IsMarketplacePlan(plan: Option<string>) {
    Truthy(plan) && StartsWith(plan.value, "marketplace-")
  }

  /** No plan, or a card with the `marketplace-card` class. */
  predicate IsMarketplaceLike(card: Card, plan: Option<string>) {
    !Truthy(plan) || "marketplace-card" in card.classes
  }

  function LicenseName(card: Card): string {
    TextOrEmpty(card, TitleSel)
  }

  function UserCount(card: Card, plan: Option<string>): string {
    if plan == Some("enterprise") || plan == Some("marketplace-portal") then
      match FirstMatch(card.elems, SelectSel)
      case Some(k) => card.elems[k].value
      case None => if plan == Some("marketplace-portal") then "50" else "250"
    else if plan == Some("onprem-portal") then
      match FirstMatch(card.elems, OnpremUsersSel)
      case Some(k) => Trim(card.elems[k].text)
      case None => "50"
    else if Truthy(Attr(card.attrs, "data-marketplace-users")) then
      card.attrs["data-marketplace-users"]
    else
      TextOrEmpty(card, UsersSel)
  }

  function PeriodText(card: Card, plan: Option<string>): string {
    if IsMarketplacePlan(plan) then TwelveMonths
    else if IsMarketplaceLike(card, plan) then
      match FirstMatch(card.elems, SubpriceSel)
      case Some(k) => if Contains(card.elems[k].text, Month) then Month else TwelveMonths
      case None => TwelveMonths
    else if Attr(card.attrs, "data-lic-group") == Some("cloud") then MonthWord
    else TwelveMonths
  }

  function Price(card: Card, plan: Option<string>): string {
    if IsMarketplacePlan(plan) then TextOrEmpty(card, MarketplacePriceSel)
    else if IsMarketplaceLike(card, plan) then TextOrEmpty(card, MarketplacePriceSel)
    else if Attr(card.attrs, "data-lic-group") == Some("cloud") then TextOrEmpty(card, CloudPriceSel)
    else TextOrEmpty(card, BoxPriceSel)
  }

  function Resolve(card: Card, plan: Option<string>): LicenseInfo {
    LicenseInfo(LicenseName(card), UserCount(card, plan), Price(card, plan), PeriodText(card, plan))
  }

  /** `getLicenseInfo(planOrCard)`: null exactly when a plan string was given
      and none of the three lookups finds a card; a card given directly
      always resolves, with its own `data-plan` as the plan. */
  function GetLicenseInfo(doc: seq<Card>, target: Target): (r: Option<LicenseInfo>)
    ensures r.None? <==> (target.PlanId? &&
      NoneFound(doc, ByLicenseCard, target.plan) && NoneFound(doc, ByMarketplaceCard, target.plan) &&
      NoneFound(doc, ByBuyButton, target.plan))
    ensures target.CardRef? ==> r == Some(Resolve(target.card, Attr(target.card.attrs, "data-plan")))
    ensures target.PlanId? && r.Some? ==>
      FindCard(doc, target.plan).Some? && r == Some(Resolve(FindCard(doc, target.plan).value, Some(target.plan)))
  {
    match target
    case CardRef(c) => Some(Resolve(c, Attr(c.attrs, "data-plan")))
    case PlanId(p) =>
      match FindCard(doc, p)
      case None => None
      case Some(c) => Some(Resolve(c, Some(p)))
  }

  // ---------------------------------------------------------------- rules

  /** The title: trimmed text of the first title element, "" without one. */
  lemma NameRule(card: Card)
    ensures NoMatch(card.elems, TitleSel) ==> LicenseName(card) == ""
    ensures forall k :: IsFirstMatch(card.elems, k, TitleSel) ==> LicenseName(card) == Trim(card.elems[k].text)
  {
    FirstMatchUnique(card.elems, TitleSel);
  }

  /** The first match is unique. */
  lemma FirstMatchUnique(elems: seq<Elem>, sel: set<string>)
    ensures forall k :: IsFirstMatch(elems, k, sel) ==> FirstMatch(elems, sel) == Some(k)
  {
    forall k | IsFirstMatch(elems, k, sel) ensures FirstMatch(elems, sel) == Some(k) {
      var r := FirstMatch(elems, sel);
      assert !NoMatch(elems, sel);
      assert r.Some?;
    }
  }

  /** The user count: the select's value (defaults 50 and 250) for the
      enterprise and marketplace-portal plans, the subheader title (default
      50) for onprem-portal, and otherwise a non-empty
      `data-marketplace-users` before the first users text. */
  lemma UserCountRule(card: Card, plan: Option<string>)
    ensures var u := UserCount(card, plan);
      && (plan == Some("enterprise") && NoMatch(card.elems, SelectSel) ==> u == "250")
      && (plan == Some("marketplace-portal") && NoMatch(card.elems, SelectSel) ==> u == "50")
      && ((plan == Some("enterprise") || plan == Some("marketplace-portal")) ==>
            forall k :: IsFirstMatch(card.elems, k, SelectSel) ==> u == card.elems[k].value)
      && (plan == Some("onprem-portal") && NoMatch(card.elems, OnpremUsersSel) ==> u == "50")
      && (plan == Some("onprem-portal") ==>
            forall k :: IsFirstMatch(card.elems, k, OnpremUsersSel) ==> u == Trim(card.elems[k].text))
  {
    FirstMatchUnique(card.elems, SelectSel);
    FirstMatchUnique(card.elems, OnpremUsersSel);
  }

  /** The user count of every other plan: a non-empty
      `data-marketplace-users` when the card has one, else the trimmed text
      of the first users element, or "" without one. */
  lemma OtherUserCountRule(card: Card, plan: Option<string>)
    requires plan !in {Some("enterprise"), Some("marketplace-portal"), Some("onprem-portal")}
    ensures var users := Attr(card.attrs, "data-marketplace-users");
      Truthy(users) ==> UserCount(card, plan) == users.value
    ensures !Truthy(Attr(card.attrs, "data-marketplace-users")) && NoMatch(card.elems, UsersSel) ==>
      UserCount(card, plan) == ""
    ensures !Truthy(Attr(card.attrs, "data-marketplace-users")) ==>
      forall k :: IsFirstMatch(card.elems, k, UsersSel) ==> UserCount(card, plan) == Trim(card.elems[k].text)
  {
    FirstMatchUnique(card.elems, UsersSel);
  }

  /** The period label: "12 мес" for a marketplace plan; for a card without
      a plan or with the marketplace-card class, "мес" exactly when its
      first subprice text mentions "мес"; otherwise "месяц" exactly for the
      cloud group. */
  lemma PeriodTextRule(card: Card, plan: Option<string>)
    ensures var t := PeriodText(card, plan);
      && (IsMarketplacePlan(plan) ==> t == TwelveMonths)
      && (!IsMarketplacePlan(plan) && IsMarketplaceLike(card, plan) ==>
            t == if exists k :: IsFirstMatch(card.elems, k, SubpriceSel) && Contains(card.elems[k].text, Month)
                 then Month else TwelveMonths)
      && (!IsMarketplacePlan(plan) && !IsMarketplaceLike(card, plan) ==>
            t == if Attr(card.attrs, "data-lic-group") == Some("cloud") then MonthWord else TwelveMonths)
      && t in {Month, TwelveMonths, MonthWord}
  {
    FirstMatchUnique(card.elems, SubpriceSel);
  }

  /** The price follows the same three-way split as the period label: the
      marketplace price elements for marketplace plans and marketplace-like
      cards, `.price-current` for the cloud group, the boxed subheader price
      otherwise; "" when the element is missing. */
  lemma PriceRule(card: Card, plan: Option<string>)
    ensures var p := Price(card, plan);
      && (IsMarketplacePlan(plan) || IsMarketplaceLike(card, plan) ==> p == TextOrEmpty(card, MarketplacePriceSel))
      && (PeriodText(card, plan) == MonthWord ==> p == TextOrEmpty(card, CloudPriceSel))
      && (!IsMarketplacePlan(plan) && !IsMarketplaceLike(card, plan) && Attr(card.attrs, "data-lic-group") != Some("cloud") ==>
            p == TextOrEmpty(card, BoxPriceSel))
      && (!IsMarketplacePlan(plan) && !IsMarketplaceLike(card, plan) && NoMatch(card.elems, CloudPriceSel) && NoMatch(card.elems, BoxPriceSel) ==> p == "")
  {
    if PeriodText(card, plan) == MonthWord {
      PeriodTextRule(card, plan);
    }
  }

  /** The marketplace-portal plan reads the first select's value as the user
      count and the first marketplace price element as the price, over
      twelve months. */
  lemma PortalPlanResolves(card: Card, s: nat, k: nat)
    requires FirstMatch(card.elems, SelectSel) == Some(s)
    requires FirstMatch(card.elems, MarketplacePriceSel) == Some(k)
    ensures Resolve(card, Some("marketplace-portal")) ==
      LicenseInfo(LicenseName(card), card.elems[s].value, Trim(card.elems[k].text), TwelveMonths)
  {
    assert "marketplace-portal"[..12] == "marketplace-";
    assert IsMarketplacePlan(Some("marketplace-portal"));
  }

  /** A card found through its own `data-plan` (the first two lookups)
      resolves the same whether the caller passes the card or the plan
      string, as the buy handlers do. */
  lemma CardAndPlanAgree(doc: seq<Card>, plan: string)
    requires !NoneFound(doc, ByLicenseCard, plan) || !NoneFound(doc, ByMarketplaceCard, plan)
    ensures FindCard(doc, plan).Some?
    ensures GetLicenseInfo(doc, CardRef(FindCard(doc, plan).value)) == GetLicenseInfo(doc, PlanId(plan))
  {
    var c := FindCard(doc, plan).value;
    if !NoneFound(doc, ByLicenseCard, plan) {
      var k :| IsFirstCard(doc, k, ByLicenseCard, plan) && Some(c) == Some(doc[k]);
    } else {
      var k :| IsFirstCard(doc, k, ByMarketplaceCard, plan) && Some(c) == Some(doc[k]);
    }
    assert Attr(c.attrs, "data-plan") == Some(plan);
  }

  // ---------------------------------------------------------------- buy form

  /** The price and license inputs of the lead-capture form. */
  datatype BuyForm = BuyForm(price: string, license: string)

  /** The buy handlers resolve the clicked card when there is one, else the
      button's plan, and fill the form only when that resolves. */
  function FillBuyForm(doc: seq<Card>, clickedCard: Option<Card>, plan: string, form: BuyForm): (r: BuyForm)
    ensures var info := GetLicenseInfo(doc, if clickedCard.Some? then CardRef(clickedCard.value) else PlanId(plan));
      && (info.None? ==> r == form)
      && (info.Some? ==> r == BuyForm(info.value.price + " " + info.value.periodText,
                                      info.value.licenseName + " " + info.value.userCount + UsersSuffix))
  {
    var target := if clickedCard.Some? then CardRef(clickedCard.value) else PlanId(plan);
    match GetLicenseInfo(doc, target)
    case None => form
    case Some(info) =>
      BuyForm(info.price + " " + info.periodText, info.licenseName + " " + info.userCount + UsersSuffix)
  }

  /** A filled form carries the resolved price followed by one of the three
      period labels, and the resolved name and user count followed by
      " пользователей". */
  lemma BuyFormShape(doc: seq<Card>, clickedCard: Option<Card>, plan: string, form: BuyForm)
    requires GetLicenseInfo(doc, if clickedCard.Some? then CardRef(clickedCard.value) else PlanId(plan)).Some?
    ensures var r := FillBuyForm(doc, clickedCard, plan, form);
      var info := GetLicenseInfo(doc, if clickedCard.Some? then CardRef(clickedCard.value) else PlanId(plan)).value;
      && info.periodText in {Month, TwelveMonths, MonthWord}
      && r.price == info.price + " " + info.periodText
      && r.license == info.licenseName + " " + info.userCount + UsersSuffix
    ensures var r := FillBuyForm(doc, clickedCard, plan, form);
      |r.license| >= |UsersSuffix| && r.license[|r.license| - |UsersSuffix|..] == UsersSuffix
  {
    var target := if clickedCard.Some? then CardRef(clickedCard.value) else PlanId(plan);
    match target
    case CardRef(c) => PeriodTextRule(c, Attr(c.attrs, "data-plan"));
    case PlanId(p) => PeriodTextRule(FindCard(doc, p).value, Some(p));
  }
}
