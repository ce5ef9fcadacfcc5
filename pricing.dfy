/** Price display rules of js/index.js: the cloud/on-premises tab switch and
    the month/year billing toggle over the cloud license cards
    (`updatePrices`), the enterprise price tables (`updateEnterprisePrice`)
    and the marketplace-portal price table. `toLocaleString("ru-RU")` is
    `Text.Format`; the `data-month-price` and `data-year-price` attributes
    are taken as the numbers `Number(...)` reads from them. */
module Pricing {
  import opened Text
  import License

  /** The inline `display` style of an old-price element. */
  datatype Display = Unset | Inline | Hidden

  datatype OldPrice = OldPrice(display: Display, text: string)

  const Rub: string := " ₽"
  const PerMonth: string := "₽/месяц"

  /** A `.license-card[data-lic-group="cloud"]`: its price attributes and its
      `.price-old`, `.price-current` and `.price-suffix` elements, each of
      which may be missing. */
  datatype CloudCard = CloudCard(
    monthPrice: nat, yearPrice: nat,
    priceOld: Option<OldPrice>, priceCurrent: Option<string>, priceSuffix: Option<string>)

  predicate IsYear(billing: Option<string>) {
    billing == Some("year")
  }

  /** One step of `updatePrices(billing)` on one card. */
  function ApplyBilling(c: CloudCard, billing: Option<string>): CloudCard {
    if c.priceCurrent.None? || c.priceSuffix.None? then c
    else if IsYear(billing) then
      c.(priceOld := if c.priceOld.Some? then Some(OldPrice(Inline, Format(c.monthPrice) + Rub)) else None,
         priceCurrent := Some(Format(c.yearPrice)),
         priceSuffix := Some(PerMonth))
    else
      c.(priceOld := if c.priceOld.Some? then Some(OldPrice(Hidden, "")) else None,
         priceCurrent := Some(Format(c.monthPrice)),
         priceSuffix := Some(PerMonth))
  }

  function ApplyAll(cs: seq<CloudCard>, billing: Option<string>): (r: seq<CloudCard>)
    ensures |r| == |cs|
  {
    seq(|cs|, i requires 0 <= i < |cs| => ApplyBilling(cs[i], billing))
  }

  /** In year mode a complete card shows the year price as current and the
      month price, with the rouble sign, as a visible old price; in any
      other mode the old price is hidden and empty and the month price is
      current; a card missing its current-price or suffix element is left
      as it was. The price attributes never change. */
  lemma ApplyBillingRule(c: CloudCard, billing: Option<string>)
    ensures var r := ApplyBilling(c, billing);
      && r.monthPrice == c.monthPrice && r.yearPrice == c.yearPrice
      && (c.priceCurrent.None? || c.priceSuffix.None? ==> r == c)
      && (c.priceCurrent.Some? && c.priceSuffix.Some? ==>
            r.priceSuffix == Some(PerMonth) && r.priceOld.Some? == c.priceOld.Some?
            && (IsYear(billing) ==>
                  r.priceCurrent == Some(Format(c.yearPrice))
                  && (c.priceOld.Some? ==> r.priceOld.value == OldPrice(Inline, Format(c.monthPrice) + Rub)))
            && (!IsYear(billing) ==>
                  r.priceCurrent == Some(Format(c.monthPrice))
                  && (c.priceOld.Some? ==> r.priceOld.value == OldPrice(Hidden, ""))))
  {
  }

  /** What a card shows depends only on the last billing mode applied:
      switching to year and back to month restores the month display, and
      applying a mode twice is applying it once. */
  lemma {:induction false} LastModeWins(cs: seq<CloudCard>, first: Option<string>, second: Option<string>)
    ensures ApplyAll(ApplyAll(cs, first), second) == ApplyAll(cs, second)
  {
    var a, b := ApplyAll(ApplyAll(cs, first), second), ApplyAll(cs, second);
    forall i | 0 <= i < |cs| ensures a[i] == b[i] {
      assert ApplyAll(cs, first)[i] == ApplyBilling(cs[i], first);
    }
  }

  // ---------------------------------------------------------------- tabs

  /** A `.licenses__tab` or `.licenses__group`: its `data-lic-group` and
      whether it has the `active` class. */
  datatype Tab = Tab(group: Option<string>, active: bool)

  /** A `.licenses__bill` button: `data-bill`, `active` class, `disabled`.
      Its opacity and cursor styles follow `disabled` and are not kept. */
  datatype BillTab = BillTab(bill: Option<string>, active: bool, disabled: bool)

  /** Only tab `k` is active. */
  function SelectTab(tabs: seq<Tab>, k: nat): (r: seq<Tab>)
    requires k < |tabs|
    ensures |r| == |tabs| && forall i :: 0 <= i < |r| ==> r[i].group == tabs[i].group && (r[i].active <==> i == k)
  {
    seq(|tabs|, i requires 0 <= i < |tabs| => tabs[i].(active := i == k))
  }

  /** Exactly the groups whose `data-lic-group` equals the tab's are active. */
  function ShowGroup(groups: seq<Tab>, group: Option<string>): (r: seq<Tab>)
    ensures |r| == |groups| && forall i :: 0 <= i < |r| ==> r[i].group == groups[i].group && (r[i].active <==> groups[i].group == group)
  {
    seq(|groups|, i requires 0 <= i < |groups| => groups[i].(active := groups[i].group == group))
  }

  /** `document.querySelector('.licenses__bill[data-bill="b"]')`. */
  function FirstBill(tabs: seq<BillTab>, b: string): (r: Option<nat>)
    ensures r.Some? ==>
      r.value < |tabs| && tabs[r.value].bill == Some(b) && forall j :: 0 <= j < r.value ==> tabs[j].bill != Some(b)
    ensures r.None? ==> forall j :: 0 <= j < |tabs| ==> tabs[j].bill != Some(b)
  {
    if tabs == [] then None
    else if tabs[0].bill == Some(b) then Some(0)
    else match FirstBill(tabs[1..], b)
      case None => None
      case Some(j) => Some(j + 1)
  }

  /** The on-premises tab: month buttons become inactive and disabled, year
      buttons active and enabled, any other button is untouched. */
  function OnpremBillTabs(tabs: seq<BillTab>): (r: seq<BillTab>)
    ensures |r| == |tabs|
  {
    seq(|tabs|, i requires 0 <= i < |tabs| =>
      if tabs[i].bill == Some("month") then tabs[i].(active := false, disabled := true)
      else if tabs[i].bill == Some("year") then tabs[i].(active := true, disabled := false)
      else tabs[i])
  }

  predicate HasMonthAndYear(tabs: seq<BillTab>) {
    FirstBill(tabs, "month").Some? && FirstBill(tabs, "year").Some?
  }

  /** The cloud tab: every button enabled; when a month and a year button
      both exist, the first year button loses and the first month button
      gains the `active` class. */
  function CloudBillTabs(tabs: seq<BillTab>): (r: seq<BillTab>)
    ensures |r| == |tabs|
  {
    var enabled := seq(|tabs|, i requires 0 <= i < |tabs| => tabs[i].(disabled := false));
    assert forall i :: 0 <= i < |tabs| ==> enabled[i].bill == tabs[i].bill;
    if HasMonthAndYear(tabs) then
      var m, y := FirstBill(tabs, "month").value, FirstBill(tabs, "year").value;
      enabled[y := enabled[y].(active := false)][m := enabled[m].(active := true)]
    else enabled
  }

  /** Every month button ends disabled and inactive, every year button
      enabled and active; buttons without either value are untouched. */
  lemma OnpremForcesYear(tabs: seq<BillTab>)
    ensures var r := OnpremBillTabs(tabs);
      forall i :: 0 <= i < |r| ==>
        r[i].bill == tabs[i].bill
        && (tabs[i].bill == Some("month") ==> r[i].disabled && !r[i].active)
        && (tabs[i].bill == Some("year") ==> !r[i].disabled && r[i].active)
        && (tabs[i].bill !in {Some("month"), Some("year")} ==> r[i] == tabs[i])
  {
  }

  /** After the cloud tab no button is disabled, and when both kinds exist
      the first month button is active and the first year button is not. */
  lemma CloudEnablesMonth(tabs: seq<BillTab>)
    ensures var r := CloudBillTabs(tabs);
      && (forall i :: 0 <= i < |r| ==> !r[i].disabled && r[i].bill == tabs[i].bill)
      && (HasMonthAndYear(tabs) ==>
            r[FirstBill(tabs, "month").value].active && !r[FirstBill(tabs, "year").value].active)
      && (forall i :: 0 <= i < |r| && !HasMonthAndYear(tabs) ==> r[i].active == tabs[i].active)
      && (forall i :: 0 <= i < |r| && Some(i) != FirstBill(tabs, "month") && Some(i) != FirstBill(tabs, "year") ==>
            r[i].active == tabs[i].active)
  {
  }

  /** `.licenses__bill.active`'s `data-bill`, or "month" with no active
      button: the billing mode `updateEnterprisePrice` uses. */
  function ActiveBilling(tabs: seq<BillTab>): (r: Option<string>)
    ensures (forall i :: 0 <= i < |tabs| ==> !tabs[i].active) ==> r == Some("month")
    ensures (exists i :: 0 <= i < |tabs| && tabs[i].active) ==>
      exists i :: 0 <= i < |tabs| && tabs[i].active && r == tabs[i].bill
                  && forall j :: 0 <= j < i ==> !tabs[j].active
  {
    if tabs == [] then Some("month")
    else if tabs[0].active then tabs[0].bill
    else ActiveBilling(tabs[1..])
  }

  /** On a page whose billing buttons are one month and one year button, the
      on-premises tab makes year the active mode and the cloud tab makes
      month the active mode, whatever the buttons showed before. */
  lemma {:induction false} TabsDecideBilling(m: BillTab, y: BillTab)
    requires m.bill == Some("month") && y.bill == Some("year")
    ensures ActiveBilling(OnpremBillTabs([m, y])) == Some("year")
    ensures ActiveBilling(CloudBillTabs([m, y])) == Some("month")
  {
    var on := OnpremBillTabs([m, y]);
    assert !on[0].active && on[1].active;
    assert ActiveBilling(on) == ActiveBilling(on[1..]);
    assert FirstBill([m, y], "month") == Some(0);
    assert [m, y][1..] == [y];
    assert FirstBill([m, y], "year") == Some(1);
    var cl := CloudBillTabs([m, y]);
    assert cl[0].active;
  }

  // ---------------------------------------------------------------- switcher

  /** The license section: group tabs, group panels, billing buttons and the
      cloud cards `updatePrices` rewrites. */
  class LicenseSwitcher {
    var licTabs: seq<Tab>
    var groups: seq<Tab>
    var billTabs: seq<BillTab>
    const cards: array<CloudCard>

    constructor(licTabs: seq<Tab>, groups: seq<Tab>, billTabs: seq<BillTab>, cards: array<CloudCard>)
      ensures this.licTabs == licTabs && this.groups == groups && this.billTabs == billTabs && this.cards == cards
    {
      this.licTabs := licTabs;
      this.groups := groups;
      this.billTabs := billTabs;
      this.cards := cards;
    }

    /** `updatePrices(billing)`: every cloud card gets the display of that
        mode. */
    method UpdatePrices(billing: Option<string>)
      modifies cards
      ensures cards[..] == ApplyAll(old(cards[..]), billing)
    {
      var i := 0;
      while i < cards.Length
        invariant 0 <= i <= cards.Length
        invariant forall j :: 0 <= j < i ==> cards[j] == ApplyBilling(old(cards[j]), billing)
        invariant forall j :: i <= j < cards.Length ==> cards[j] == old(cards[j])
      {
        cards[i] := ApplyBilling(cards[i], billing);
        i := i + 1;
      }
    }

    /** A click on group tab `k` (installed only when there are tabs and
        groups): the tab becomes the only active one, its groups are shown,
        and the on-premises tab forces year billing while the cloud tab
        re-enables month billing. */
    method ClickLicTab(k: nat)
      requires k < |licTabs|
      modifies this, cards
      ensures |groups| == 0 ==> licTabs == old(licTabs) && groups == old(groups) && billTabs == old(billTabs) && cards[..] == old(cards[..])
      ensures |groups| > 0 ==>
        var g := old(licTabs)[k].group;
        && licTabs == SelectTab(old(licTabs), k)
        && groups == ShowGroup(old(groups), g)
        && (g == Some("onprem") ==> billTabs == OnpremBillTabs(old(billTabs)) && cards[..] == ApplyAll(old(cards[..]), Some("year")))
        && (g == Some("cloud") ==>
              billTabs == CloudBillTabs(old(billTabs)) &&
              cards[..] == if HasMonthAndYear(old(billTabs)) then ApplyAll(old(cards[..]), Some("month")) else old(cards[..]))
        && (g !in {Some("onprem"), Some("cloud")} ==> billTabs == old(billTabs) && cards[..] == old(cards[..]))
    {
      if |groups| == 0 {
        return;
      }
      var g := licTabs[k].group;
      licTabs := SelectTab(licTabs, k);
      groups := ShowGroup(groups, g);
      if g == Some("onprem") {
        billTabs := OnpremBillTabs(billTabs);
        UpdatePrices(Some("year"));
      } else if g == Some("cloud") {
        var both := HasMonthAndYear(billTabs);
        billTabs := CloudBillTabs(billTabs);
        if both {
          UpdatePrices(Some("month"));
        }
      }
    }

    /** A click on billing button `k`: ignored while it is disabled,
        otherwise it becomes the only active button and the cloud cards take
        its mode. */
    method ClickBillTab(k: nat)
      requires k < |billTabs|
      modifies this`billTabs, cards
      ensures old(billTabs)[k].disabled ==> billTabs == old(billTabs) && cards[..] == old(cards[..])
      ensures !old(billTabs)[k].disabled ==>
        |billTabs| == |old(billTabs)|
        && (forall i :: 0 <= i < |billTabs| ==> billTabs[i] == old(billTabs)[i].(active := i == k))
        && cards[..] == ApplyAll(old(cards[..]), old(billTabs)[k].bill)
    {
      if billTabs[k].disabled {
        return;
      }
      var tabs := billTabs;
      billTabs := seq(|tabs|, i requires 0 <= i < |tabs| => tabs[i].(active := i == k));
      UpdatePrices(tabs[k].bill);
    }
  }

  // ---------------------------------------------------------------- enterprise

  const EnterpriseMonth: map<string, nat> := map[
    "250" := 33990, "500" := 59990, "1000" := 99990, "2000" := 199990,
    "3000" := 299990, "4000" := 399990, "5000" := 499990, "6000" := 599990,
    "7000" := 699990, "8000" := 799990, "9000" := 899990, "10000" := 999990]

  const EnterpriseYear: map<string, nat> := map[
    "250" := 27190, "500" := 47990, "1000" := 79990, "2000" := 159990,
    "3000" := 239990, "4000" := 319990, "5000" := 399990, "6000" := 479990,
    "7000" := 559990, "8000" := 639990, "9000" := 719990, "10000" := 799990]

  /** The user-count tiers of the enterprise select, smallest first. */
  const Tiers: seq<string> := ["250", "500", "1000", "2000", "3000", "4000", "5000", "6000", "7000", "8000", "9000", "10000"]

  const FallbackMonth: nat := 33990
  const FallbackYear: nat := 27190

  /** `enterprisePricesMonth[v] || 33990`. */
  function MonthPriceOf(selected: string): nat {
    if selected in EnterpriseMonth then EnterpriseMonth[selected] else FallbackMonth
  }

  /** `enterprisePricesYear[v] || 27190`. */
  function YearPriceOf(selected: string): nat {
    if selected in EnterpriseYear then EnterpriseYear[selected] else FallbackYear
  }

  /** The enterprise card's `.price-current` and `.price-old`. */
  datatype PriceView = PriceView(current: Option<string>, oldPrice: Option<OldPrice>)

  /** `updateEnterprisePrice` for the selected tier and billing mode. */
  function EnterprisePrice(selected: string, billing: Option<string>, v: PriceView): (r: PriceView)
    ensures r.current.Some? == v.current.Some? && r.oldPrice.Some? == v.oldPrice.Some?
  {
    if IsYear(billing) then
      PriceView(
        if v.current.Some? then Some(Format(YearPriceOf(selected))) else None,
        if v.oldPrice.Some? then Some(OldPrice(Inline, Format(MonthPriceOf(selected)) + Rub)) else None)
    else
      PriceView(
        if v.current.Some? then Some(Format(MonthPriceOf(selected))) else None,
        if v.oldPrice.Some? then Some(OldPrice(Hidden, "")) else None)
  }

  /** In year mode the enterprise card shows the year price of the selected
      tier as current and its month price, with the rouble sign, as a
      visible old price; in any other mode the month price is current and
      the old price is hidden and empty. Missing elements stay missing. */
  lemma EnterpriseRule(selected: string, billing: Option<string>, v: PriceView)
    ensures var r := EnterprisePrice(selected, billing, v);
      && (IsYear(billing) && v.current.Some? ==> r.current == Some(Format(YearPriceOf(selected))))
      && (IsYear(billing) && v.oldPrice.Some? ==> r.oldPrice == Some(OldPrice(Inline, Format(MonthPriceOf(selected)) + Rub)))
      && (!IsYear(billing) && v.current.Some? ==> r.current == Some(Format(MonthPriceOf(selected))))
      && (!IsYear(billing) && v.oldPrice.Some? ==> r.oldPrice == Some(OldPrice(Hidden, "")))
  {
  }

  /** Whatever the tier, the struck-through month price shown in year mode
      is higher than the current year price. */
  lemma {:induction false} EnterpriseYearIsCheaper(selected: string)
    ensures YearPriceOf(selected) < MonthPriceOf(selected)
  {
    EnterpriseTables();
    if selected in EnterpriseMonth {
      assert selected in EnterpriseYear;
    }
  }

  /** Only the last update counts: repricing an already repriced card gives
      what repricing the original gives. */
  lemma EnterpriseLastWins(s1: string, b1: Option<string>, s2: string, b2: Option<string>, v: PriceView)
    ensures EnterprisePrice(s2, b2, EnterprisePrice(s1, b1, v)) == EnterprisePrice(s2, b2, v)
  {
  }

  /** Both tables price exactly the twelve tiers, the unknown selection falls
      back to the 250 tier, and the year price is below the month price. */
  lemma EnterpriseTables()
    ensures EnterpriseMonth.Keys == EnterpriseYear.Keys == set t | t in Tiers
    ensures MonthPriceOf("250") == FallbackMonth && YearPriceOf("250") == FallbackYear
    ensures forall t :: t in EnterpriseMonth ==> EnterpriseYear[t] < EnterpriseMonth[t]
  {
  }

  /** Larger tiers cost strictly more, month and year alike. */
  lemma {:induction false} EnterpriseMonotone(i: nat, j: nat)
    requires i < j < |Tiers|
    ensures MonthPriceOf(Tiers[i]) < MonthPriceOf(Tiers[j])
    ensures YearPriceOf(Tiers[i]) < YearPriceOf(Tiers[j])
    decreases j - i
  {
    if j > i + 1 {
      EnterpriseMonotone(i, j - 1);
      EnterpriseMonotone(j - 1, j);
    } else {
      assert MonthPriceOf(Tiers[i]) == EnterpriseMonth[Tiers[i]];
      assert MonthPriceOf(Tiers[j]) == EnterpriseMonth[Tiers[j]];
      assert YearPriceOf(Tiers[i]) == EnterpriseYear[Tiers[i]];
      assert YearPriceOf(Tiers[j]) == EnterpriseYear[Tiers[j]];
    }
  }

  /** Tier 10000 in year mode shows 799990 with 999990 struck through; tier
      250 in month mode shows 33990 with the old price hidden; any other
      value prices like tier 250. */
  lemma EnterpriseExamples(v: PriceView, other: string)
    requires v.current.Some? && v.oldPrice.Some?
    requires other !in EnterpriseMonth
    ensures EnterprisePrice("10000", Some("year"), v) == PriceView(Some(Format(799990)), Some(OldPrice(Inline, Format(999990) + Rub)))
    ensures EnterprisePrice("250", Some("month"), v) == PriceView(Some(Format(33990)), Some(OldPrice(Hidden, "")))
    ensures forall b :: EnterprisePrice(other, b, v) == EnterprisePrice("250", b, v)
  {
    assert other !in EnterpriseYear;
  }

  // ---------------------------------------------------------------- marketplace portal

  datatype PortalPrice = PortalPrice(oldPrice: nat, current: nat)

  const PortalPrices: map<string, PortalPrice> := map[
    "50" := PortalPrice(59990, 29995), "100" := PortalPrice(79990, 39995),
    "250" := PortalPrice(99990, 49995), "500" := PortalPrice(119990, 59995)]

  /** Every portal tier is offered at exactly half its old price. */
  lemma PortalHalfPrice()
    ensures forall v :: v in PortalPrices ==> 2 * PortalPrices[v].current == PortalPrices[v].oldPrice
  {
  }

  /** Sets the text of the first element matching the selector, if any. */
  function SetFirstText(elems: seq<License.Elem>, sel: set<string>, t: string): (r: seq<License.Elem>)
    ensures |r| == |elems| && forall i :: 0 <= i < |r| ==> r[i].classes == elems[i].classes && r[i].value == elems[i].value
    ensures forall i :: 0 <= i < |r| ==>
      r[i] == if License.FirstMatch(elems, sel) == Some(i) then elems[i].(text := t) else elems[i]
  {
    match License.FirstMatch(elems, sel)
    case None => elems
    case Some(k) => elems[k := elems[k].(text := t)]
  }

  /** The card's old price and its subheader price set to a table entry,
      with the rouble sign. */
  function ApplyPortalPrice(p: PortalPrice, card: License.Card): (r: License.Card)
    ensures r.classes == card.classes && r.attrs == card.attrs && |r.elems| == |card.elems|
  {
    var e1 := SetFirstText(card.elems, {"marketplace-card__price-old"}, Format(p.oldPrice) + Rub);
    card.(elems := SetFirstText(e1, {"marketplace-card__subheader-price"}, Format(p.current) + Rub))
  }

  /** `updateMarketplacePortalPrice`: a tier in the table reprices the card,
      any other value leaves it unchanged. */
  function UpdatePortalPrice(selected: string, card: License.Card): (r: License.Card)
    ensures selected !in PortalPrices ==> r == card
    ensures r.classes == card.classes && r.attrs == card.attrs && |r.elems| == |card.elems|
    ensures selected in PortalPrices ==>
      var p := PortalPrices[selected];
      forall i :: 0 <= i < |r.elems| ==>
        r.elems[i] ==
          if License.FirstMatch(card.elems, {"marketplace-card__subheader-price"}) == Some(i) then
            card.elems[i].(text := Format(p.current) + Rub)
          else if License.FirstMatch(card.elems, {"marketplace-card__price-old"}) == Some(i) then
            card.elems[i].(text := Format(p.oldPrice) + Rub)
          else card.elems[i]
  {
    if selected in PortalPrices then
      var e1 := SetFirstText(card.elems, {"marketplace-card__price-old"}, Format(PortalPrices[selected].oldPrice) + Rub);
      FirstMatchByClasses(e1, card.elems, {"marketplace-card__subheader-price"});
      ApplyPortalPrice(PortalPrices[selected], card)
    else card
  }

  /** Which element a selector finds depends only on the elements' classes. */
  lemma {:induction false} FirstMatchByClasses(a: seq<License.Elem>, b: seq<License.Elem>, sel: set<string>)
    requires |a| == |b| && forall i :: 0 <= i < |a| ==> a[i].classes == b[i].classes
    ensures License.FirstMatch(a, sel) == License.FirstMatch(b, sel)
  {
    if a != [] {
      FirstMatchByClasses(a[1..], b[1..], sel);
    }
  }

  /** After repricing, the card's first marketplace price element still is
      element `k`, now holding the current price, and its first select still
      is element `s`. */
  lemma {:induction false} PortalUpdateElems(p: PortalPrice, card: License.Card, k: nat, s: nat)
    requires License.IsFirstMatch(card.elems, k, License.MarketplacePriceSel)
    requires "marketplace-card__subheader-price" in card.elems[k].classes
    requires License.IsFirstMatch(card.elems, s, License.SelectSel)
    ensures var after := ApplyPortalPrice(p, card).elems;
      && License.FirstMatch(after, License.MarketplacePriceSel) == Some(k)
      && after[k].text == Format(p.current) + Rub
      && License.FirstMatch(after, License.SelectSel) == Some(s)
      && after[s].value == card.elems[s].value
  {
    var after := ApplyPortalPrice(p, card).elems;
    var e1 := SetFirstText(card.elems, {"marketplace-card__price-old"}, Format(p.oldPrice) + Rub);
    FirstMatchByClasses(e1, card.elems, {"marketplace-card__subheader-price"});
    License.FirstMatchUnique(card.elems, {"marketplace-card__subheader-price"});
    FirstMatchNarrows(card.elems, k, License.MarketplacePriceSel, "marketplace-card__subheader-price");
    assert after[k].text == Format(p.current) + Rub;
    FirstMatchByClasses(after, card.elems, License.MarketplacePriceSel);
    FirstMatchByClasses(after, card.elems, License.SelectSel);
    License.FirstMatchUnique(card.elems, License.MarketplacePriceSel);
    License.FirstMatchUnique(card.elems, License.SelectSel);
  }

  /** The first element matching a selector list is also the first matching
      any one of the list's classes that it carries. */
  lemma FirstMatchNarrows(elems: seq<License.Elem>, k: nat, sel: set<string>, c: string)
    requires License.IsFirstMatch(elems, k, sel) && c in sel && c in elems[k].classes
    ensures License.IsFirstMatch(elems, k, {c})
  {
    assert c in elems[k].classes * {c};
    forall j | 0 <= j < k ensures !License.HasClass(elems[j], {c}) {
      assert !License.HasClass(elems[j], sel);
      assert c !in elems[j].classes * sel;
    }
  }

  /** A price text rendered with the rouble sign has no white space to trim. */
  lemma RubleTextIsTrimmed(n: nat)
    ensures Trim(Format(n) + Rub) == Format(n) + Rub
  {
    var f := Format(n);
    var t := f + Rub;
    assert '0' <= f[0] <= '9';
    assert t[0] == f[0];
    assert t[|t| - 1] == Rub[|Rub| - 1] == '₽';
    assert !IsSpace(t[0]) && !IsSpace(t[|t| - 1]);
    TrimOfTrimmed(t);
  }

  /** A repriced marketplace-portal card resolves to its select's value as
      the user count and the new current price over twelve months. */
  lemma {:induction false} RepricedCardResolves(p: PortalPrice, card: License.Card, k: nat, s: nat)
    requires License.IsFirstMatch(card.elems, k, License.MarketplacePriceSel)
    requires "marketplace-card__subheader-price" in card.elems[k].classes
    requires License.IsFirstMatch(card.elems, s, License.SelectSel)
    ensures var info := License.Resolve(ApplyPortalPrice(p, card), Some("marketplace-portal"));
      && info.userCount == card.elems[s].value
      && info.price == Format(p.current) + Rub
      && info.periodText == License.TwelveMonths
  {
    PortalUpdateElems(p, card, k, s);
    RubleTextIsTrimmed(p.current);
    License.PortalPlanResolves(ApplyPortalPrice(p, card), s, k);
  }

  /** Choosing a tier in the marketplace-portal select reaches the resolver:
      on a card whose first marketplace price element is its subheader price
      and whose first select holds the chosen tier, the resolver then reports
      that tier as the user count and half the old price as the price, over
      a twelve-month period. */
  lemma {:induction false} PortalTierResolves(selected: string, card: License.Card, k: nat, s: nat)
    requires selected in PortalPrices
    requires License.IsFirstMatch(card.elems, k, License.MarketplacePriceSel)
    requires "marketplace-card__subheader-price" in card.elems[k].classes
    requires License.IsFirstMatch(card.elems, s, License.SelectSel) && card.elems[s].value == selected
    ensures var info := License.Resolve(UpdatePortalPrice(selected, card), Some("marketplace-portal"));
      && info.userCount == selected
      && 2 * PortalPrices[selected].current == PortalPrices[selected].oldPrice
      && info.price == Format(PortalPrices[selected].current) + Rub
      && info.periodText == License.TwelveMonths
  {
    RepricedCardResolves(PortalPrices[selected], card, k, s);
    PortalHalfPrice();
  }

  /** The buy button of a repriced marketplace-portal card fills the form
      with the tier's current price over twelve months and the chosen tier
      as the number of users. */
  lemma {:induction false} PortalTierReachesBuyForm(doc: seq<License.Card>, selected: string, card: License.Card,
                                                    k: nat, s: nat, plan: string, form: License.BuyForm)
    requires selected in PortalPrices
    requires License.Attr(card.attrs, "data-plan") == Some("marketplace-portal")
    requires License.IsFirstMatch(card.elems, k, License.MarketplacePriceSel)
    requires "marketplace-card__subheader-price" in card.elems[k].classes
    requires License.IsFirstMatch(card.elems, s, License.SelectSel) && card.elems[s].value == selected
    ensures var after := UpdatePortalPrice(selected, card);
      License.FillBuyForm(doc, Some(after), plan, form) ==
        License.BuyForm(Format(PortalPrices[selected].current) + Rub + " " + License.TwelveMonths,
                        License.LicenseName(after) + " " + selected + License.UsersSuffix)
  {
    PortalTierResolves(selected, card, k, s);
  }
}
