# Pricing page logic, modelled in Dafny

This project models the decision logic of a marketing and pricing page for a
business-portal product. It is written in browser JavaScript in
`js/index.js` and `js/second.js`. Five pieces are modelled:

- **The license information resolver** `getLicenseInfo`. It takes a card element
  or a plan string, finds the card through a fixed lookup order, and fills the
  license name, user count, price and period label from a chain of branches.
  The buy buttons compose two form texts from its result.
- **Price display rules**:
  - the cloud / on-premises tab switch, which forces year billing on premises;
  - the month/year billing toggle `updatePrices` over the cloud cards;
  - the enterprise price tables with their fallbacks;
  - the marketplace-portal price table.
- **The testimonial carousel**. A continuous `progress` over `[0, 10n]`, the
  derived front item `active`, the per-item depth, click-to-jump, dragging and
  wrapping prev/next arrows.
- **The client-case modal**. The case text is split into task, solution and
  result: on the HTML-entity or plain blank line, else the regular-expression
  fallback, with a placeholder for a missing text. The arrows step through
  the cases, wrapping at both ends.
- **The portal card sliders** of `js/second.js`:
  - cards in view by window width;
  - guarded prev/next;
  - button enablement;
  - swipes with a 50 px threshold;
  - the index clamp on resize.

Modules:

| module | file | form |
|---|---|---|
| `Text` | `text.dfy` | The JavaScript string built-ins the page uses, as functions: `trim`, `indexOf`, `includes`, `startsWith` and literal `split`. Also the decimal rendering of prices. |
| `License` | `license.dfy` | Pure functions over a card record. A card is its classes, its attributes and its elements in document order. |
| `Pricing` | `pricing.dfy` | Pure rules, plus a `LicenseSwitcher` class. The class holds the tab and button states and an `array` of cloud cards that `UpdatePrices` rewrites in a loop. |
| `Carousel` | `carousel.dfy` | Pure arithmetic with lemmas, plus a `Carousel` class whose methods update `progress`, `active`, `isDown`, `startX` and the per-item style arrays. |
| `CaseStudy` | `casestudy.dfy` | Pure parsing functions, plus a `CaseModal` class holding `currentCaseIndex` and the shown texts. |
| `PortalSlider` | `slider.dfy` | Pure step functions, plus a `Slider` class holding `currentIndex`, the button states and the touch coordinates. |

Inputs the page reads from the browser are parameters. These are the window
width, pointer and touch coordinates, the attributes and texts of elements,
and the keys pressed. Numbers are exact: `progress` is a Dafny `real` and
prices are `nat`.

## Model

| member | source | states |
|---|---|---|
| Text.Trim | js/index.js:58 | The result is a contiguous slice of the input, and every character before and after the slice is white space. A non-empty result begins and ends with a non-white-space character. |
| Text.TrimIdempotent | js/index.js:58 | Trimming twice is trimming once. |
| Text.TrimSkipsSpace | js/index.js:897-899 | A white-space character in front of a string does not change its trim. |
| Text.IndexOf | js/index.js:898 | `indexOf` gives the first position where the needle occurs, and gives -1 (`None`) exactly when it occurs nowhere. |
| Text.Split | js/index.js:887-893 | Splitting on a non-empty separator gives at least one part, and no part contains the separator. |
| Text.JoinSplit | js/index.js:887-893 | Joining the parts of a split with the separator gives the original text back. |
| Text.SplitJoin | js/index.js:887-893 | Splitting a join gives back the original parts, when no part runs into the separator that follows it and the last part does not contain it. |
| Text.Format | js/index.js:297-307 | The rendered price is non-empty and all decimal digits, with no leading zero except for 0 itself. |
| Text.FormatReadsBack | js/index.js:297-307 | The rendered digits, read as a decimal number, give back the number rendered. |
| Text.FormatInjective | js/index.js:297-307 | Different prices never render as the same text. |
| License.FirstMatch | js/index.js:57 | `querySelector` with a selector list finds the first element carrying any of the listed classes, and finds nothing exactly when no element does. |
| License.FindCard | js/index.js:40-51 | A plan string finds, in this order: the first `.license-card` with that `data-plan`, else the first `.marketplace-card` with it, else the first marketplace card holding a buy button with it. It finds nothing exactly when all three lookups fail. |
| License.GetLicenseInfo | js/index.js:31-54 | The result is null exactly when a plan string was given and all three lookups fail. A card passed directly resolves with its own `data-plan` as the plan. A plan string that finds a card resolves that card, with the plan string as the plan. |
| License.NameRule | js/index.js:56-58 | The license name is the trimmed text of the first title element, or "" without one. |
| License.UserCountRule | js/index.js:60-75 | For enterprise and marketplace-portal the user count is the first select's value, else "250" or "50". For onprem-portal it is the trimmed subheader title, else "50". |
| License.OtherUserCountRule | js/index.js:76-85 | For every other plan, a non-empty `data-marketplace-users` is the user count. When the attribute is missing or empty, the user count is the trimmed text of the first users element, or "" without one. |
| License.PeriodTextRule | js/index.js:87-109 | "12 мес" for a plan starting with `marketplace-`. For a card with no plan or with the marketplace-card class: "мес" when the first subprice text contains "мес", else "12 мес". For any other card: "месяц" for the cloud group, else "12 мес". |
| License.PriceRule | js/index.js:111-134 | The price follows the same three-way branching as the period label. It reads the marketplace price elements, `.price-current` for the cloud group, or the boxed subheader price, and is "" when the element is missing. |
| License.PortalPlanResolves | js/index.js:64-116 | A marketplace-portal card resolves to its select's value as the user count and its first marketplace price text as the price, over "12 мес". |
| License.CardAndPlanAgree | js/index.js:36-46 | A card found through its own `data-plan` resolves the same whether the card or the plan string is passed. |
| License.FillBuyForm | js/index.js:453-457 | When the resolver gives null, the buy form is left unchanged. Otherwise the price field is the price, a space and the period label, and the license field is the name, a space, the user count and " пользователей". |
| License.BuyFormShape | js/index.js:564-568 | A filled price field is the resolved price followed by the resolved period label, which is always one of the three labels. A filled license field carries the resolved name and user count and ends with " пользователей". |
| Pricing.ApplyBillingRule | js/index.js:284-311 | In year mode a complete card shows the year price as current and the month price plus " ₽" as a visible old price. In any other mode the old price is hidden and empty and the month price is current. A card lacking `.price-current` or `.price-suffix` is unchanged. |
| Pricing.LastModeWins | js/index.js:284-311 | What the cloud cards show depends only on the last billing mode applied. |
| Pricing.LicenseSwitcher.UpdatePrices | js/index.js:284-311 | The loop leaves every cloud card as the billing rule makes it from its old state. |
| Pricing.SelectTab | js/index.js:229-230 | After a tab click exactly the clicked tab is active. |
| Pricing.ShowGroup | js/index.js:232-238 | Exactly the groups whose `data-lic-group` matches the tab's are active. |
| Pricing.FirstBill | js/index.js:267-272 | The lookup of a billing button by `data-bill` finds the first such button, or none exactly when there is none. |
| Pricing.OnpremForcesYear | js/index.js:241-256 | The on-premises tab leaves every month button disabled and inactive and every year button enabled and active. Other buttons are untouched. |
| Pricing.CloudEnablesMonth | js/index.js:259-277 | The cloud tab enables every button. When both kinds exist, the first month button becomes active and the first year button inactive. Every other button keeps its active state. |
| Pricing.ActiveBilling | js/index.js:374-377 | The billing mode is the `data-bill` of the first active button in page order, or "month" when none is active. |
| Pricing.TabsDecideBilling | js/index.js:241-277 | With one month and one year button, the on-premises tab makes "year" the active mode and the cloud tab makes it "month". |
| Pricing.LicenseSwitcher.ClickLicTab | js/index.js:224-281 | A tab click selects the tab and shows its groups. The on-premises tab forces year buttons and year prices. The cloud tab enables all buttons and, when both buttons exist, restores month prices. Nothing happens without groups. |
| Pricing.LicenseSwitcher.ClickBillTab | js/index.js:313-327 | A click on a disabled button changes nothing. Otherwise the button becomes the only active one, and the cloud cards take its mode. |
| Pricing.EnterprisePrice | js/index.js:366-403 | Updating the enterprise price keeps which elements exist. |
| Pricing.EnterpriseRule | js/index.js:379-402 | For every tier and mode: year mode shows the year price as current and the month price + " ₽" as a visible old price. Any other mode shows the month price and hides and empties the old price. |
| Pricing.EnterpriseYearIsCheaper | js/index.js:335-364 | For every selection, including unknown ones, the year price is below the month price shown struck through. |
| Pricing.EnterpriseLastWins | js/index.js:366-403 | Updating twice shows what the last update alone shows. |
| Pricing.EnterpriseTables | js/index.js:335-364 | Both tables price exactly the twelve tiers, and the fallbacks equal the 250-user prices. Every year price is below its month price. |
| Pricing.EnterpriseMonotone | js/index.js:335-364 | A larger tier costs strictly more, in both tables. |
| Pricing.EnterpriseExamples | js/index.js:379-402 | Tier 10000 in year mode shows 799990 current with 999990 + " ₽" struck through and shown. Tier 250 in month mode shows 33990 with the old price hidden and empty. An unknown tier prices like tier 250. |
| Pricing.PortalHalfPrice | js/index.js:652-657 | Every marketplace-portal tier's current price is half its old price. |
| Pricing.UpdatePortalPrice | js/index.js:659-676 | A value outside the table leaves the card unchanged. A tier in the table writes its current price + " ₽" into the first subheader price element and its old price + " ₽" into the first old-price element. Every other element, and the card's classes and attributes, stay as they were. |
| Pricing.PortalUpdateElems | js/index.js:666-674 | After repricing, the card's first marketplace price element holds the new current price + " ₽". Its select keeps its value. |
| Pricing.RepricedCardResolves | js/index.js:659-676 | A repriced marketplace-portal card resolves to the select's value, the new current price and "12 мес". |
| Pricing.PortalTierResolves | js/index.js:646-683 | Choosing a tier makes the resolver report that tier as the user count and half the old price as the price. |
| Pricing.PortalTierReachesBuyForm | js/index.js:527-574 | After a tier is chosen, the buy button of the marketplace-portal card fills the form with the tier's current price + " ₽ 12 мес", and with the card name, the tier and " пользователей". |
| Carousel.ZindexOrder | js/index.js:747-750 | Every depth lies in [1, n]. Only the front item has depth n, and nearer items lie strictly above farther ones. |
| Carousel.ActiveInRange | js/index.js:760-762 | Any clamped progress puts `active` in [0, n - 1]. |
| Carousel.ActiveMonotone | js/index.js:762 | More progress never gives an earlier front item. |
| Carousel.DragDirection | js/index.js:772-779 | Dragging right never brings a later item to the front, and dragging left never an earlier one. |
| Carousel.JumpMakesActive | js/index.js:766-771 | Clicking item i sets progress 10i + 10, and after `animate` item i is in front. |
| Carousel.NavWraps | js/index.js:801-805 | Prev from the first item goes to the last, and next from the last goes to the first. Otherwise the arrows move one step, and prev and next undo each other. |
| Carousel.NavigateMakesActive | js/index.js:799-808 | With at least two items, the progress the arrows set brings the target item to the front. |
| Carousel.PointerX | js/index.js:774 | The pointer coordinate is the client x, else the first touch's x, else 0. |
| Carousel.Carousel.constructor | js/index.js:751-765 | The carousel starts at progress 5n, not dragging, with styles consistent with the front item. |
| Carousel.Carousel.Animate | js/index.js:754-764 | Progress is clamped to [0, 10n], `active` is derived from it, and every item's depth and offset match `active`. |
| Carousel.Carousel.ClickItem | js/index.js:766-771 | After a click on item i, item i is in front at depth n. |
| Carousel.Carousel.MouseDown | js/index.js:780-783 | A drag starts at the pointer coordinate. |
| Carousel.Carousel.MouseMove | js/index.js:772-779 | Outside a drag nothing changes. During one, progress moves by the displacement times -0.1, clamped, and the start follows the pointer. |
| Carousel.Carousel.MouseUp | js/index.js:784-786 | The drag ends. |
| Carousel.Carousel.Navigate | js/index.js:799-808 | The front item becomes the wrapped neighbour. The progress is the arrows' progress for it, clamped to [0, 10n]. |
| CaseStudy.AfterColon | js/index.js:897-899 | The result is the suffix after the first colon, with no colon before it. A text without a colon is kept whole. |
| CaseStudy.AltMatch | js/index.js:919 | A match needs a colon just before the position and a line feed in the white-space run after it. There is a match exactly when both hold. It is greedy: it ends after the last line feed of that run. |
| CaseStudy.AltPartsEndInColon | js/index.js:919 | Every fallback part but the last is non-empty and ends with a colon. |
| CaseStudy.PlaceholderRule | js/index.js:885-937 | A missing or empty case text shows the placeholder in all three fields. A non-empty one leaves the fields as they were exactly when neither split gives three parts. |
| CaseStudy.SectionReadsBack | js/index.js:897-915 | A section written as heading, colon, space and text, with a colon-free heading and trimmed text, reads back as that text. |
| CaseStudy.CaseRoundTrip | js/index.js:887-917 | A case text of three such sections joined by either blank-line form opens with exactly those three texts. |
| CaseStudy.AltTaskIsEmpty | js/index.js:919-929 | On the fallback path, a first part whose only colon ends it gives an empty task. The solution then carries a colon from the next heading. |
| CaseStudy.WrapCaseRule | js/index.js:963-972 | The wrapped index is always a case index. An index before the first goes to the last, and one past the last goes to the first. Prev and next undo each other. |
| CaseStudy.CaseModal.constructor | js/index.js:853-859 | No case is open (index -1) and the modal is hidden. |
| CaseStudy.CaseModal.OpenModal | js/index.js:880-942 | The review text is shown, the fields take what the case text yields or keep their content, and the modal is shown. |
| CaseStudy.CaseModal.FillSections | js/index.js:885-937 | The fields become what the case text yields, or keep their content when it yields nothing. |
| CaseStudy.CaseModal.ClickCase | js/index.js:953-961 | A case button opens its own case. It becomes the current index, and the modal shows its review and the fields its case text yields. |
| CaseStudy.CaseModal.OpenCaseByIndex | js/index.js:963-972 | Without case buttons nothing changes. Otherwise the case at the wrapped index is opened, with its review and fields shown. |
| CaseStudy.CaseModal.Prev | js/index.js:974-979 | The previous case opens, with its review and fields, wrapping from the first to the last. Without case buttons nothing changes. |
| CaseStudy.CaseModal.Next | js/index.js:981-986 | The next case opens, with its review and fields, wrapping from the last to the first. Without case buttons nothing changes. |
| CaseStudy.CaseModal.Close | js/index.js:946-950 | The modal is hidden. |
| CaseStudy.CaseModal.KeyDown | js/index.js:1006-1011 | Escape hides a shown modal, and any other key changes nothing. |
| PortalSlider.CardsPerView | js/second.js:16-21 | Between one and three cards are in view. |
| PortalSlider.CardsPerViewRule | js/second.js:16-21 | One card exactly up to 768 px and three exactly above 1200 px. A wider window never shows fewer cards. |
| PortalSlider.MaxIndex | js/second.js:56 | The last start index is the card count minus the cards in view, or 0 when all cards fit. It brings the last card into view and lies below the card count. |
| PortalSlider.MaxIndexAntitone | js/second.js:55-56 | A wider window never raises the last start index. |
| PortalSlider.NextTimesStops | js/second.js:78-87 | k presses of next advance k steps but stop at one past the last start index, which no number of presses passes. |
| PortalSlider.PrevTimesStops | js/second.js:70-76 | k presses of prev step back k times but never below 0. |
| PortalSlider.NextPrevUndo | js/second.js:70-87 | Prev undoes a next that moved, and next undoes a prev that moved. |
| PortalSlider.IndexWithinCards | js/second.js:70-87 | Next and prev keep the index within the card count. |
| PortalSlider.SwipeOf | js/second.js:110-121 | A finger move of more than 50 px to the left is a next and more than 50 px to the right a prev. Anything within 50 px does nothing. |
| PortalSlider.ResizeRule | js/second.js:128-132 | After a resize the index is at most the last start index, and an index in range is kept. Resizing again changes nothing. |
| PortalSlider.Slider.constructor | js/second.js:11-14 | A slider with at least one card starts at index 0. |
| PortalSlider.Slider.UpdateButtons | js/second.js:54-68 | Prev takes clicks exactly when the index is past 0. Next takes clicks exactly when the index is at most the last start index. A missing button keeps its state. |
| PortalSlider.Slider.GoToPrev | js/second.js:70-76 | The index steps back unless it is at 0, and the buttons are restyled when it moved. |
| PortalSlider.Slider.GoToNext | js/second.js:78-87 | The index steps on while it is at most the last start index, and the buttons are restyled when it moved. |
| PortalSlider.Slider.ClickPrev | js/second.js:89-91 | A click on an existing, enabled prev button goes back. When the index moved, both buttons are restyled for the new index; otherwise they keep their state. |
| PortalSlider.Slider.ClickNext | js/second.js:93-95 | A click on an existing, enabled next button goes on. When the index moved, both buttons are restyled for the new index; otherwise they keep their state. |
| PortalSlider.Slider.TouchStart | js/second.js:101-103 | The touch start coordinate is recorded. |
| PortalSlider.Slider.TouchEnd | js/second.js:105-121 | A long enough swipe moves one step in its direction and restyles the buttons when the index moved. A short one leaves the index and the buttons as they were. |
| PortalSlider.Slider.Resize | js/second.js:125-136 | The index is pulled back to the last start index, and the buttons are restyled so that next takes clicks. |
| PortalSlider.Slider.Init | js/second.js:139-142 | The first update styles both buttons from the starting index. |

## Left out

- Text.Format: plain decimal digits. `toLocaleString("ru-RU")` also inserts digit-group separators, which are not modelled.
- `Number(attr)`: the price attributes are taken as the natural numbers it reads. Non-numeric attributes, which give `NaN`, are not modelled.
- Object prototype keys: the price tables are plain maps. A selected value naming an inherited key, such as `constructor`, is not modelled.
- Nested cards: cards are not nested in one another. The buy-button lookup therefore finds the first marketplace card that holds such a button, which is what `closest` returns for the first matching button.
- Visual styles are not kept. These are the `opacity` and `cursor` of billing buttons and slider buttons, and the body `overflow` while a modal is open. The slider keeps only `pointer-events`, as a flag for whether a button takes clicks.
- Pixel geometry: the slider's `translateX` and its overflow correction (`updateSlider`), and the placement of the case arrows (`positionOutsideArrows`). These depend on layout measurements.
- Timers: the 100 ms and 250 ms delays and the debounce of the resize handler. Each handler is modelled as running when its timer fires.
- The delayed enterprise repricing after a billing click. `EnterprisePrice` takes the active billing mode as an input, and the wiring between the two is not modelled.
- The buy form's asynchronous wait for the third-party form, and the label injection into it. FillBuyForm models only the two values written once the form is there.
- Carousel.Carousel.constructor: requires at least one item. With none, `progress` stays 0, but `animate` divides zero by zero, so `active` becomes `NaN`.
- Plan strings containing `"` or `\`: the attribute selectors built from the plan would be malformed and throw. FindCard treats every plan string as a plain lookup.
- Carousel.Carousel.Navigate: requires at least two items. With one item, `navigateCarousel` divides by zero.
- Floating point: carousel arithmetic uses exact reals. Rounding in `(i / n) * n * 10` and in the drag factor `-0.1` is not modelled.
- Observers, animations, the burger menu, the chart hover and the other modals are not modelled.
- The case modal's arrow buttons and close button are assumed present. The button-presence checks around their listeners are not modelled.

## Notes on the code

- `goToNext` in `js/second.js` lets the index reach one past the last start index (`currentIndex <= maxIndex` before the increment). The comment beside it says this is intended. The model follows the code rather than a clamp at the last start index. NextTimesStops states the resulting bound.
- The fallback split `split(/(?<=:)\s*\n/)` is modelled exactly, with the regular-expression split algorithm of section 22.2.6.14 of ECMA-262. Its parts end at the colon, so the headings stay in the parts. For a text like `Задача:\nA\nРешение:\nB\nРезультат:\nC` the fallback gives an empty task and a solution of `A\nРешение:` (AltTaskIsEmpty). The model keeps this behaviour as written.
