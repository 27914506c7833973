# Pizzeria cart and booking core, in Dafny

A model of the logic of the pizzeria front end: the bounded quantity
counter ("amount widget"), the option pricing of a menu product and the
line-item snapshot it hands to the cart, the cart with its totals and
order payload, and the table-booking availability index with its single
table selection. Each JavaScript class whose fields are updated in place
is a Dafny `class` whose methods carry `modifies` frames. Each rule that
the classes compute with a loop (the unit price, the params snapshot, the
cart sums, the half-hour slot expansion) is also a function. The methods
are proved against those functions, and the lemmas prove what the
functions mean.

Conventions:
- A parsed number is an `Option<int>`, and `None` stands for `NaN`.
- Prices are integers.
- A date is an integer day number, and the next day is `+1`.
- An hour is an integer count of half hours, so 14:00 is 28.
- A booking's length in the availability index is a count of half-hour slots.
- The booking form's duration is in hours, so it books twice as many slots.
- A form is a total map from parameter id to the set of chosen option ids.
- DOM state the logic reads or writes is a plain field: the booked and
  chosen classes on the tables, the displayed price, the address and phone
  inputs, and the dispatched events.

Files:
- `wrappers.dfy`: `Option`.
- `sums.dfy`: a generic sum with concatenation, removal and permutation lemmas.
- `amount_widget.dfy`: the widget (src/js/components/AmountWidget.js, copied at src/js/script.js:86-142).
- `product.dfy`: the pricing rule, the params snapshot and the `Product` class.
- `cart.dfy`: `CartProduct`, the `Cart` class, `indexOf` and `splice`.
- `booking.dfy`: the availability index, the replay done by `parseData`, and the `Booking` class.
- `app.dfy`: the older script.js wiring, in which a product adds itself to the cart directly.

The settings constants come from src/js/script.js:65-73. They are a
default quantity of 1, bounds of 1 and 9, and a delivery fee of 20. The
components read them from settings.js, which is not part of this model.

## Model

| member | source | states |
|---|---|---|
| AmountWidgets.Resolve | src/js/components/AmountWidget.js:40-46 | The value changes if and only if the parsed input is a number, differs from the current value and lies in [1, 9]; a changed value is that number; a value in range stays in range |
| AmountWidgets.AmountWidget.constructor | src/js/components/AmountWidget.js:4-11 | Starts from the default 1, hands the input's initial content to setValue, ends valid and has announced once |
| AmountWidgets.AmountWidget.SetValue | src/js/components/AmountWidget.js:38-49 | The new value is the resolution of the old value and the input; the input shows the value afterwards; exactly one announcement, changed or not |
| AmountWidgets.AmountWidget.Announce | src/js/components/AmountWidget.js:51-58 | Exactly one more 'updated' event |
| AmountWidgets.AmountWidget.Change | src/js/components/AmountWidget.js:25-27 | A typed input goes through setValue: value resolved against the old one, one announcement |
| AmountWidgets.AmountWidget.Decrease | src/js/components/AmountWidget.js:28-31 | At the minimum the value stays 1; above it the value drops by exactly one; one announcement |
| AmountWidgets.AmountWidget.Increase | src/js/components/AmountWidget.js:32-35 | At the maximum the value stays 9; below it the value rises by exactly one; one announcement |
| AmountWidgets.InRangeInputAccepted | src/js/script.js:121-129 | Every in-range number is taken as it is |
| AmountWidgets.InvalidInputRejected | src/js/script.js:121-129 | NaN and out-of-range numbers leave the value unchanged |
| AmountWidgets.ResolveIdempotent | src/js/components/AmountWidget.js:38-46 | setValue with the same input twice leaves the value of once |
| AmountWidgets.RunStaysInRange | src/js/script.js:121-132 | From the default value, any sequence of setValue calls keeps the value within [1, 9] |
| AmountWidgets.RunEndsOnAnInput | src/js/script.js:121-129 | After any sequence of setValue calls the value is the default or one of the inputs |
| Products.ChosenExtras | src/js/components/Product.js:111-112 | Holds exactly the options of the parameter that are chosen and not default |
| Products.DroppedDefaults | src/js/components/Product.js:113-114 | Holds exactly the options of the parameter that are default and not chosen |
| Products.ParamDeltaRule | src/js/components/Product.js:98-116 | A parameter's price change is the sum of its chosen extras minus the sum of its dropped defaults |
| Products.ParamsDeltaRule | src/js/components/Product.js:95-117 | The same rule summed over all parameters |
| Products.UnitPriceRule | src/js/components/Product.js:93-119 | priceSingle is the base price plus the chosen non-default option prices minus the unchosen default option prices |
| Products.DefaultsKeepBasePrice | src/js/components/Product.js:111-115 | When the chosen options are exactly the defaults, priceSingle is the base price |
| Products.ParamOrderIrrelevant | src/js/components/Product.js:95-117 | Visiting the parameters in any order gives the same unit price |
| Products.OptionOrderIrrelevant | src/js/components/Product.js:98-116 | Visiting a parameter's options in any order gives the same price change |
| Products.ChosenLabels | src/js/components/Product.js:136-143 | The options map's keys are exactly the parameter's option ids that are chosen |
| Products.CartParams | src/js/components/Product.js:129-144 | The params snapshot has one key per parameter id |
| Products.ChosenLabelsExact | src/js/components/Product.js:136-143 | With distinct option ids, an option is in the map if and only if it is chosen, and it maps to its own label |
| Products.CartParamsExact | src/js/components/Product.js:129-146 | With distinct parameter ids, every parameter maps to its label and the labels of its chosen options |
| Products.Product.constructor | src/js/components/Product.js:6-18 | Creates the amount widget from its initial input, then prices the form: priceSingle is the unit price and the display shows it times the amount |
| Products.Product.ProcessOrder | src/js/components/Product.js:90-122 | The nested loops leave priceSingle equal to the unit price, which does not depend on the amount; the displayed price is priceSingle times the amount |
| Products.Product.ChangeAmount | src/js/components/Product.js:83-88 | A quantity change in the product form resolves the widget's value and re-prices the product |
| Products.Product.PrepareCartProductParams | src/js/components/Product.js:124-147 | The nested loops build exactly the params snapshot of the form |
| Products.Product.PrepareCartProduct | src/js/components/Product.js:149-162 | The snapshot carries id, name, amount = widget value, priceSingle, price = priceSingle times amount, and the params snapshot |
| Products.Product.AddToCart | src/js/components/Product.js:164-177 | Exactly one add-to-cart event is dispatched, after the earlier ones, and its detail is the snapshot |
| Carts.CartProduct.constructor | src/js/script.js:290-303 | The line item copies every field of the snapshot, and its widget starts from the rendered amount |
| Carts.CartProduct.OnAmountUpdated | src/js/script.js:346-349 | The line price becomes widget value times priceSingle; id, name, amount, priceSingle and params are never reassigned |
| Carts.IndexOf | src/js/components/Cart.js:90 | The first index holding the item, or -1 exactly when it is absent |
| Carts.SpliceOne | src/js/components/Cart.js:91 | splice(start, 1): an index in range deletes exactly that entry and keeps the others in order; an index past the end changes nothing |
| Carts.RemovePresent | src/js/components/Cart.js:87-97 | Removing a present item deletes its first occurrence, keeps the rest in order and takes one copy of it out of the multiset |
| Carts.RemoveAbsentDropsLast | src/js/components/Cart.js:90-91 | Removing an absent item runs splice(-1, 1) and drops the last item |
| Carts.AddedItemTotals | src/js/components/Cart.js:68-71 | Appending an item adds exactly its amount and its price to the sums |
| Carts.RemovedItemTotals | src/js/script.js:226-236 | Removing a present item lowers the count by exactly its amount and the subtotal by exactly its price |
| Carts.Cart.constructor | src/js/components/Cart.js:6-13 | The cart starts empty with zero totals |
| Carts.Cart.Add | src/js/components/Cart.js:51-59 | Exactly one new item is appended last, earlier items are unchanged and in order, the new item's data is the snapshot, and the totals are current |
| Carts.Cart.Update | src/js/components/Cart.js:61-85 | After the loop the item count is the sum of the amounts, the subtotal the sum of the prices, and the total follows the delivery-fee rule |
| Carts.Cart.SumLines | src/js/components/Cart.js:68-71 | The loop over the items ends with the item count equal to the sum of their amounts and the subtotal equal to the sum of their prices |
| Carts.Cart.Remove | src/js/components/Cart.js:87-97 | The items become the splice of the old items at indexOf, and the totals are current |
| Carts.Cart.SendOrder | src/js/components/Cart.js:99-115 | The payload copies address, phone and the three totals, always carries the fee 20, and lists every item's data in cart order |
| Carts.Cart.ClearCart | src/js/components/Cart.js:133-147 | No items, empty address and phone, and all three totals 0 |
| Carts.Cart.Submit | src/js/components/Cart.js:44-48 | The payload carries the address, phone, all three totals and the items' data from before the submit, with the fixed fee 20; afterwards the cart has no items, empty contact fields and all totals 0 |
| Carts.Cart.ChangeQuantity | src/js/script.js:342-350 | A line item's quantity change re-prices the line and updates the totals, but the cart's item count stays what it was |
| Bookings.AppendSlotsAt | src/js/components/Booking.js:106-112 | A slot inside the booked half hours gets the table appended; every other slot is unchanged |
| Bookings.MarkOccupied | src/js/components/Booking.js:97-113 | The date gets an entry; other dates are unchanged; a slot inside the booking gets the table appended at its end, and every other slot keeps its list |
| Bookings.MarkOccupiedBooked | src/js/components/Booking.js:100-111 | After a booking, a table is booked at a slot if and only if it was booked before or the new booking covers that slot with that table |
| Bookings.MarkOccupiedKeepsEarlier | src/js/components/Booking.js:107-111 | A booking never removes anything: every earlier slot list is a prefix of the new one |
| Bookings.BookedTwiceListedTwice | src/js/components/Booking.js:107-111 | The same booking made twice lists the table twice in each of its slots |
| Bookings.NoSlotsNoChange | src/js/components/Booking.js:100-106 | A duration of zero or less adds no slot, though it may add an empty entry for the date |
| Bookings.NaNTableBooksNothing | src/js/components/Booking.js:189-217 | A booking with a NaN table makes no table booked anywhere |
| Bookings.ReplayBooked | src/js/components/Booking.js:75-81 | After a replay of entries, a table is booked at a slot if and only if it was before or some entry covers the slot with that table |
| Bookings.DailyBooked | src/js/components/Booking.js:88-90 | Repeating an event over a date range books its hours with its table on exactly those dates |
| Bookings.ReplayRepeatsBooked | src/js/components/Booking.js:86-92 | Only events repeating 'daily' are expanded, over minDate..maxDate inclusive |
| Bookings.BuildIndexBooked | src/js/components/Booking.js:70-95 | After parseData, a table is booked at (date, hour) if and only if a booking or a one-off event covers it there, or a daily event covers the hour and the date is within the picker's range |
| Bookings.ThreeSlotBookingExample | src/js/components/Booking.js:97-113 | A booking at 14:00 for 1.5 hours at table 5 occupies table 5 at 14:00, 14:30 and 15:00 of its date and nowhere else |
| Bookings.DailyEventExample | src/js/components/Booking.js:86-92 | An hour-long daily event at 18:00 at table 2 over three visible dates occupies 18:00 and 18:30 on each of them and nothing else |
| Bookings.ShownBooked | src/js/components/Booking.js:121-145 | A table shows as booked if and only if its id is numeric and the slot list for the date and hour exists and holds it; a missing date or hour leaves every table free |
| Bookings.SubmitWithoutTable | src/js/components/Booking.js:186-219 | With no table chosen, the payload's table is parseInt(null) = NaN, and after the server accepts it the optimistic makeBooked leaves every table's booked status at every date and hour as it was |
| Bookings.CheckedValues | src/js/components/Booking.js:197-203 | The starters are exactly the values of the checked checkboxes |
| Bookings.CheckedValuesConcat | src/js/components/Booking.js:199-203 | The starters keep the document order of the checkboxes |
| Bookings.Booking.constructor | src/js/components/Booking.js:8-18 | No table is chosen or booked, the index is empty, and both widgets are valid |
| Bookings.Booking.MakeBooked | src/js/components/Booking.js:97-113 | The half-hour loop leaves the index equal to the old index with the booking marked in it |
| Bookings.Booking.ParseData | src/js/components/Booking.js:70-95 | The loops rebuild the index from empty as the replay of bookings, one-off events and daily events, then refresh the booked flags |
| Bookings.Booking.BookEntries | src/js/components/Booking.js:75-81 | The loop over the bookings, or over the one-off events, leaves the index equal to the old one with every entry replayed in order |
| Bookings.Booking.BookRepeats | src/js/components/Booking.js:86-92 | The loop over the repeated events expands exactly the 'daily' ones into the index |
| Bookings.Booking.BookDaily | src/js/components/Booking.js:88-90 | The date loop books one daily event on every date from minDate to maxDate inclusive |
| Bookings.Booking.UpdateDOM | src/js/components/Booking.js:115-147 | Takes the pickers' date and hour, and flags each table as booked if and only if it shows as booked in the index |
| Bookings.Booking.TableChooseReset | src/js/components/Booking.js:171-179 | No table is chosen and the chosen id is null |
| Bookings.Booking.ClickTable | src/js/components/Booking.js:155-167 | A click first resets the selection; a booked table leaves it null; a free table becomes the only one chosen, so clicking the chosen table again keeps it chosen |
| Bookings.ClickTwice | src/js/components/Booking.js:149-169 | Running the click handler twice leaves the selection of one run and touches nothing but the selection |
| Bookings.Booking.OnUpdated | src/js/components/Booking.js:249-252 | An 'updated' event refreshes the booked flags and clears the selection |
| Bookings.Booking.SendBooking | src/js/components/Booking.js:181-203 | The payload carries the date, the hour, parseInt of the chosen id, both widgets' values, the checked starters and the contact fields |
| Bookings.Booking.OnBookingSent | src/js/components/Booking.js:213-219 | After a confirmed submit, the payload's table is marked over twice its duration in half hours; updateDOM then re-reads the pickers' date and hour and flags each table as booked exactly when it shows booked there |
| App.AddToCart | src/js/script.js:563-567 | The cart appends exactly one item built from the product's snapshot, and its totals are current |
| App.OrderExample | src/js/script.js:200-216 | A product priced 20 with one extra at 5, ordered twice, costs 25 a unit and 50 a line, and the order totals 70 with the fee |
| App.UpdateTwice | src/js/components/Cart.js:61-71 | update resets before summing, so a second call in a row leaves the totals of the first |

## Left out

- Rendering is not modelled: templates, querySelector, classList toggles other than the booked and chosen flags, innerHTML, the accordion, image highlighting in processOrder, and resetProduct. Because resetProduct is left out, AmountWidgets.AmountWidget.Increase and AmountWidgets.AmountWidget.Decrease, which require the input to show the value, do not cover the state after an add-to-cart. In that state resetProduct has written 1 into the input without calling setValue, so the next + or - step starts from 1 rather than from the value.
- Events are not modelled as events. A dispatch is an event counter or an event log. A listener is a method the caller invokes.
- The network is not modelled: fetch, its responses and the URLs built from settings. The availability fetch is replaced by the arguments of ParseData. An order or a booking ends at its payload. The optimistic index update is the method run once the server has answered.
- utils.js, DatePicker.js, HourPicker.js and settings.js are not part of this model. So hourToNumber is the half-hour encoding, dateToStr and addDays(d, 1) are integer days and `+1`, and serializeFormToObject is the total form map.
- Products.Product.ProcessOrder, Products.Product.PrepareCartProductParams, Products.ChosenLabels, Products.CartParams: a parameter the form lacks makes `formData[paramId]` undefined, and the source then throws, both when pricing and when building the params snapshot. The model treats it as nothing chosen.
- parseInt's string grammar is not modelled. Every input reaches the model already parsed, so `"3abc"` and a table id like `"5a"` are not distinguished from what they parse to. A table element whose id is empty or missing passes the source's isNaN test and becomes parseInt(...) = NaN, and includes(NaN) then matches any slot where a NaN-table booking was recorded. The model treats such an id as non-numeric and matches it nowhere.
- Bookings.Replay: the durations of fetched bookings and events arrive as counts of half-hour slots. A duration in hours that is not a multiple of half an hour is not modelled. The source would book the next whole number of slots for it.
- Concurrency is not modelled: out-of-order availability fetches and double submits.
- The bootstrap in app.init, initData and initMenu is not modelled. It only loads data and wires components together.
- Carts.Cart.constructor: the source leaves the totals undefined until the first update. The model starts them at 0.
- Bookings.Booking.constructor: the source leaves the index undefined until the first fetch answers. The model starts it empty. The source also leaves the booking's date and hour undefined until the first updateDOM, so a submit before it would send an undefined date. The model starts them from the pickers.
- Carts.CartProduct.constructor: the line item's widget reads the amount that the cart template rendered. The template is not part of this model, so the cart passes the snapshot's amount.
- Carts.Cart.Update: the sums are accumulated in local variables and stored after the loop, not in the fields directly. Nothing can observe the fields during the loop.
- Each 'updated' event makes chooseTable register its click listeners again. The model does not count these listeners. Bookings.ClickTwice shows that running the handler again changes nothing.
- src/js/components/CartProduct.js is not part of this model. CartProduct follows the class at src/js/script.js:289-364.
- Removing a line item also removes its DOM node; that part is not modelled.
