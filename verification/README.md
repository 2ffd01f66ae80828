# Bond trading pipeline, modelled in Dafny

This project models the core of a bond-trading simulator written in C++.
Every stage of the pipeline is a *service*. A service is a string-keyed store
plus an ordered list of listeners, which receive add, update or remove
notifications. The stages are:

- market data (order books, best bid/offer, depth aggregation);
- algorithmic execution and the execution service;
- trade booking, positions and risk (PV01 and bucketed sectors);
- pricing, algorithmic streaming and streaming;
- the GUI throttle;
- the inquiry state machine.

They share a product registry and two string utilities from the file
connectors: the `getline` field splitter and the 32nds price reader.

Modelling conventions:

- **Store insertion.** `Soa.Insert` is `std::map::insert`, which never overwrites an existing key.
- **Notifications.** A notification is a `Delivery` (listener index, kind, value). A service method returns the deliveries it makes, in order. `FanOut(n, kind, v)` is one loop over `n` listeners.
- **Listeners.** Each source listener is a class with one `Process(kind, data)` method that stands for its `ProcessAdd`, `ProcessUpdate` and `ProcessRemove`.
- **Output files.** Historical-data sinks and publish connectors append to ghost logs (`persisted`, `published`).
- **Stateful behaviour.** Stateful services are classes whose fields the methods update. Where a service's behaviour depends on its history, a ghost history field and a `Valid()` predicate tie the fields to a pure function of that history:
  - `AlgoExecution.Run` for the side index and order counter;
  - `TradeBooking.Booked` for the book rotation;
  - `Gui.Throttle` for `lastTick`.
- **Cross-call properties.** Lemmas about those functions state the properties that span many calls.
- **Numbers.** Prices, spreads and PV01 are `real`, with no claim to match IEEE doubles bit for bit. Quantities and counters are unbounded integers.
- **Errors.** Failures are `Result` values:
  - `NotFound` stands for a thrown "Product not found" or `std::map::at`;
  - `MissingField` stands for an index past the end of a split line, which is undefined behaviour in C++;
  - `BadNumber` stands for a failing `std::stod` or `std::stol`.

Behaviours of the code a reader may not expect:

- **GUI start-up.** `lastTick` starts at construction time (bond/GUIService.hpp:27), so a price arriving at the moment of construction is dropped, not forwarded. `Gui.FirstArrivalAtConstructionDropped` shows this.
- **GUI window.** The GUI compares against the literal 300 ms and ignores its constructor argument (bond/GUIService.hpp:59, 66).
- **Unknown product ids.** A lookup of an unknown product id in the registry does not fail. `operator[]` inserts a default bond and returns it (bond/BondProductService.hpp:38).
- **Zero-volume depth aggregation.** `AggregateDepth` divides by the total volume without a check, so a zero-volume side is excluded by a precondition rather than reported as an error (bond/BondMarketDataService.hpp:123-124).
- **Bucketed risk on unrecorded products.** `GetBucketedRisk` skips a sector's products that have no recorded risk rather than failing (bond/BondRiskService.hpp:104-109).
- **Inquiry lifecycle.**
  - With the one registered listener, a received inquiry goes all the way to DONE within the first `OnMessage`, through the listener's re-entrant call. It is published there, once.
  - With no listener it stops at QUOTED.
  - Resubmitting it from outside then publishes a DONE copy, but the stored entry stays QUOTED, because `emplace` keeps the stored entry (`Inquiries.ResubmittedInquiryStaysQuoted`).
- **Injected inquiry states.** No state is rejected. A DONE message is stored if new and otherwise ignored.
- **Algorithmic streaming notifications.** Listeners are always told of an update. The store is written before the presence check, so the add branch is never taken (bond/BondAlgoStreamingService.hpp:80-89).
- **Store updates.** Market data, pricing, streaming and risk notify an update with the new value, but the stored value stays the first one recorded (`insert` does not overwrite).

## Model

| member | source | states |
|---|---|---|
| Soa.Insert | bond/BondMarketDataService.hpp:79 | inserting under a present key leaves the map unchanged; under an absent key it adds exactly that pair; the key set grows by the key |
| Soa.KindFor | bond/BondMarketDataService.hpp:72-84 | the notification is an add exactly when the key was not stored before, and never a remove |
| Soa.FanOut | bond/BondMarketDataService.hpp:74-76 | one notification per registered listener, the i-th to listener i, all of the same kind and value |
| Soa.Notify | bond/BondExecutionService.hpp:18-20 | the listener loop makes exactly the notifications `FanOut` describes, in registration order |
| Soa.HistoricalDataService.PersistData | base/historicaldataservice.hpp:23 | persisting appends the value to the output log and changes nothing else |
| Numerals.NatToString | bond/BondAlgoExecutionService.hpp:119 | `std::to_string` of a counter is a non-empty digit string |
| Numerals.DigitsOfNatToString | bond/BondAlgoExecutionService.hpp:119 | reading back the decimal text of a counter gives the counter |
| Numerals.NatToStringInjective | bond/BondAlgoExecutionService.hpp:119 | two counters with the same decimal text are equal |
| Numerals.Stol | bond/BondTradeBookingService.hpp:57 | a digit string within `long` reads as its value; anything else is BadNumber |
| Numerals.Stod | bond/BondTradeBookingService.hpp:56 | a digit string reads as its integer value; any accepted string starts with a digit; failures are BadNumber |
| Numerals.IndexOf | bond/IOFileConnector.hpp:102 | the position of the first delimiter, or the length when there is none |
| FileConnector.SplitString | bond/IOFileConnector.hpp:98-106 | the getline loop yields exactly the fields `Split` defines |
| FileConnector.SplitFieldsHaveNoDelimiter | bond/IOFileConnector.hpp:98-106 | no field contains the delimiter |
| FileConnector.SplitJoin | bond/IOFileConnector.hpp:98-106 | joining the fields with the delimiter gives the line back, plus one delimiter when the line ended with one |
| FileConnector.WordEnd | bond/IOFileConnector.hpp:101 | one `getline` call stops at the first delimiter at or after the read position, or at the end of the line |
| FileConnector.SplitCount | bond/IOFileConnector.hpp:98-106 | an empty line has no fields; a line not ending in the delimiter has one field more than delimiters |
| FileConnector.FractionalToDouble | bond/IOFileConnector.hpp:109-112 | a price that does not split into exactly two parts on '-' reads as 0.0 |
| FileConnector.FractionalValue | bond/IOFileConnector.hpp:113-115 | `A-BBc` with digit fields is A + BB/32 + c/256, a whole number of 256ths |
| FileConnector.PlusIsFour | bond/IOFileConnector.hpp:115 | a '+' in third place reads the same as the digit 4 |
| Products.DefaultBond | bond/BondProductService.hpp:38 | the bond `operator[]` inserts has an empty id and zero PV01 |
| Products.Lookup | bond/BondProductService.hpp:38 | a present id returns its bond and leaves the map; an absent id returns the default bond and the map grows by exactly that one entry |
| Products.BondProductService.Add | bond/BondProductService.hpp:41-43 | a new id is registered with the bond; a registered id keeps its bond |
| Products.BondProductService.GetData | bond/BondProductService.hpp:37-39 | returns the registered bond, inserting and returning the default bond for an unknown id |
| Products.ProductRegistry.GetInstance | bond/BondProductService.hpp:45-50 | the first call creates an empty registry, every later call returns that same one |
| Products.AddThenLookup | bond/BondProductService.hpp:37-43 | after adding a bond under a new id, looking the id up returns that bond and inserts nothing |
| MarketData.LevelAt | bond/BondMarketDataService.hpp:48-55 | a level is read iff its price field reads in 32nds and its quantity field as a `long`, and then has those values |
| MarketData.BidStack | bond/BondMarketDataService.hpp:48-55 | five bid levels, level i from fields 2i-1 and 2i, all tagged BID |
| MarketData.OfferStack | bond/BondMarketDataService.hpp:48-55 | five offer levels, level i from fields 9+2i and 10+2i, all tagged OFFER |
| MarketData.ParseLevels | bond/BondMarketDataService.hpp:48-55 | the level loop succeeds iff the line has 21 fields and every level reads, and then yields exactly the two stacks |
| MarketData.LevelsUseDisjointFields | bond/BondMarketDataService.hpp:48-55 | bid levels depend on fields 1-10 only and offer levels on fields 11-20 only |
| MarketData.BestBidOffer | bond/BondMarketDataService.hpp:93-97 | top bid and top offer price and quantity, tagged BID and OFFER |
| MarketData.CostBounds | bond/BondMarketDataService.hpp:116-121 | with non-negative quantities the accumulated cost lies between lowest and highest price times total quantity |
| MarketData.AggregatePriceWithinLevels | bond/BondMarketDataService.hpp:123-127 | on either side, the volume-weighted average price lies between the lowest and highest level price |
| MarketData.BondMarketDataService.OnMessage | bond/BondMarketDataService.hpp:69-85 | an unseen product's book is stored and every listener gets an add; a seen product keeps its first book and every listener gets an update |
| MarketData.BondMarketDataService.GetBestBidOffer | bond/BondMarketDataService.hpp:92-106 | "not found" exactly for a product with no book; otherwise the top of the stored book |
| MarketData.BondMarketDataService.AggregateDepth | bond/BondMarketDataService.hpp:108-138 | "not found" exactly for a product with no book; otherwise one level per side with the total quantity and the volume-weighted average price |
| MarketData.BondMarketDataConnector.Parse | bond/BondMarketDataService.hpp:41-63 | the registry is looked up with field 0; the book is handed on iff all 21 fields read, with both stacks and the registry's bond; on failure the service is untouched |
| AlgoExecution.OrderFor | bond/BondAlgoExecutionService.hpp:115-119 | a MARKET order on the indexed side at that side's top price and quantity, id `Order_<counter>`, hidden 0, no parent, not a child |
| AlgoExecution.Step | bond/BondAlgoExecutionService.hpp:109-127 | one order iff top offer - top bid <= 1/128, then the side index flips and counter grows; a wide book changes nothing |
| AlgoExecution.Run | bond/BondAlgoExecutionService.hpp:106-107 | from side index 0 and counter 1, the side index stays a valid side index |
| AlgoExecution.RunInvariant | bond/BondAlgoExecutionService.hpp:107-126 | one order per tight book; order k alternates BID/OFFER from BID and is named `Order_(k+1)`; side index = orders mod 2, counter = orders + 1 |
| AlgoExecution.RunIdsDistinct | bond/BondAlgoExecutionService.hpp:119-126 | no two orders share an id |
| AlgoExecution.OrderIdInjective | bond/BondAlgoExecutionService.hpp:119 | different counters give different order ids |
| AlgoExecution.ConsecutiveTightAlternate | bond/BondAlgoExecutionService.hpp:115-125 | two tight books in a row give orders on opposite sides |
| AlgoExecution.BondAlgoExecutionService.Execute | bond/BondAlgoExecutionService.hpp:109-128 | a tight book sends every listener an add of the order `Run` predicts and advances the state; a wide book sends nothing and keeps side index and counter |
| AlgoExecution.BondMarketDataServiceListener.Process | bond/BondAlgoExecutionService.hpp:137-145 | adds and updates run the engine on the book; removals do nothing |
| AlgoExecution.BondExecutionOrderServiceListener.Process | bond/BondAlgoExecutionService.hpp:153-159 | only adds are persisted |
| Execution.BondExecutionService.OnMessage | bond/BondExecutionService.hpp:12-14 | no notifications |
| Execution.BondExecutionService.ExecuteOrder | bond/BondExecutionService.hpp:17-21 | every listener receives exactly one add of the order, in registration order |
| Execution.BondAlgoExecutionServiceListener.Process | bond/BondExecutionService.hpp:30-38 | an add executes the wrapped order; updates and removals do nothing |
| TradeBooking.ParseTrade | bond/BondTradeBookingService.hpp:53-62 | trade id field 1, price field 2, book field 3, quantity field 4, BUY iff field 5 is "0"; fewer than six fields is MissingField, an unreadable number BadNumber |
| TradeBooking.BondTradesConnector.Parse | bond/BondTradeBookingService.hpp:53-63 | a line that parses looks the product up and stores and books the trade; one that does not changes nothing |
| TradeBooking.BondTradeBookingService.OnMessage | bond/BondTradeBookingService.hpp:73-76 | the trade is stored under its id (the first trade with an id is kept) and every listener gets an add |
| TradeBooking.BondTradeBookingService.BookTrade | bond/BondTradeBookingService.hpp:78-82 | every listener receives exactly one add, never an update |
| TradeBooking.TradeFor | bond/BondTradeBookingService.hpp:93-99 | the fill's product and price, id "tradeid", visible + hidden quantity, BUY iff the fill was on the OFFER side |
| TradeBooking.BookedRotates | bond/BondTradeBookingService.hpp:89-103 | one trade per add and none otherwise; the k-th trade is booked into TRSY1, TRSY2, TRSY3 for k mod 3 = 0, 1, 2 |
| TradeBooking.BondExecutionServiceListener.Process | bond/BondTradeBookingService.hpp:93-111 | an add books the fill's trade into the current book and rotates; updates and removals book nothing and do not rotate |
| Positions.AddToBook | bond/BondPositionService.hpp:94-95 | only the traded book's quantity moves, by the signed quantity, and the aggregate moves by the same amount |
| Positions.NewPosition | bond/BondPositionService.hpp:84 | a new position holds nothing in any book |
| Positions.UpdatePosition | bond/BondPositionService.hpp:85-95 | the trade's book moves by +quantity for BUY and -quantity for SELL; other books keep their quantities |
| Positions.AfterTrade | bond/BondPositionService.hpp:79-101 | the product's position is created if need be; every other product's position is unchanged |
| Positions.PositionKeys | bond/BondPositionService.hpp:82-86 | after any trades there is a stored position exactly for each product id traded |
| Positions.PositionsAccumulate | bond/BondPositionService.hpp:79-101 | each position's aggregate and per-book quantity is the sum of that product's signed trade quantities |
| Positions.PositionCount | bond/BondPositionService.hpp:82-86 | the number of positions is the number of distinct products traded |
| Positions.BondPositionService.AddTrade | bond/BondPositionService.hpp:79-102 | applies the trade in place and notifies every listener once with the stored position after it: add on creation, update otherwise |
| Positions.BondPositionService.OnMessage | bond/BondPositionService.hpp:104-106 | no notifications |
| Positions.BondTradesServiceListener.Process | bond/BondPositionService.hpp:113-123 | an add applies the trade; updates and removals do nothing |
| Positions.BondPositionServiceListener.Process | bond/BondPositionService.hpp:132-140 | adds and updates are persisted, removals not |
| Risk.RiskOf | bond/BondRiskService.hpp:80-83 | PV01 = aggregate position times the product's PV01, for the aggregate quantity |
| Risk.SectorUnrecorded | bond/BondRiskService.hpp:104-111 | products without a stored risk are skipped; a sector with none recorded sums to 0.0 and 0 |
| Risk.SectorAdditive | bond/BondRiskService.hpp:104-111 | the sector sums are additive over concatenated product lists |
| Risk.SectorOfTwo | bond/BondRiskService.hpp:104-111 | two recorded products sum their PV01s and quantities |
| Risk.BondRiskService.OnMessage | bond/BondRiskService.hpp:75-77 | no notifications |
| Risk.BondRiskService.AddPosition | bond/BondRiskService.hpp:79-98 | the first risk for a product is stored with an add; later ones leave the store as it was and notify an update with the new risk |
| Risk.BondRiskService.GetBucketedRisk | bond/BondRiskService.hpp:100-118 | the loop sums PV01 and quantity over the sector's recorded products and reads the store only |
| Risk.BondPositionRiskServiceListener.Process | bond/BondRiskService.hpp:125-136 | adds and updates compute and record the position's risk; removals do nothing |
| Risk.BondRiskServiceListener.Process | bond/BondRiskService.hpp:145-155 | adds and updates are persisted, removals not |
| Pricing.SidesRoundTrip | bond/GUIService.hpp:52-53 | the two sides are centred on mid, one spread apart, so they give mid and spread back |
| Pricing.ParsePrice | bond/BondPricingService.hpp:40-54 | product field 0, mid field 1 and spread field 2, both read in 32nds; fewer than three fields is MissingField |
| Pricing.ParseQuotedPrice | bond/BondPricingService.hpp:40-54 | a line with well-formed quotes gives mid and spread as whole numbers of 256ths |
| Pricing.BondPricingService.OnMessage | bond/BondPricingService.hpp:60-88 | an unseen product's price is stored with an add to every listener; a seen product keeps its first price and every listener gets an update |
| Pricing.BondPricesConnector.Parse | bond/BondPricingService.hpp:40-54 | a line that parses looks the product up and hands the price on; one that does not changes nothing |
| AlgoStreaming.QuoteFor | bond/BondAlgoStreamingService.hpp:68-77 | bid at mid - spread/2 and offer at mid + spread/2, each showing the visible size with twice that hidden |
| AlgoStreaming.VisibleAt | bond/BondAlgoStreamingService.hpp:32-33 | the k-th quote shows 1,000,000 for even k and 2,000,000 for odd k |
| AlgoStreaming.VisiblePeriod | bond/BondAlgoStreamingService.hpp:79 | the sizes repeat every two quotes and consecutive quotes differ |
| AlgoStreaming.BondAlgoStreamingService.PublishPrice | bond/BondAlgoStreamingService.hpp:65-90 | the quote in the current size is stored with `insert` under the registry bond's id; the size rotates; every listener is told of an update, never an add |
| AlgoStreaming.BondAlgoStreamingService.OnMessage | bond/BondAlgoStreamingService.hpp:92 | no notifications |
| AlgoStreaming.BondPricesServiceListener.Process | bond/BondAlgoStreamingService.hpp:99-107 | an add or update looks the product up in the registry (inserting a default bond for an unknown id), stores the quote in the current visible size under the bond's id without overwriting, and tells every listener of an update carrying that quote; removals change nothing |
| Streaming.BondStreamingService.OnMessage | bond/BondStreamingService.hpp:76-78 | no notifications |
| Streaming.BondStreamingService.PublishPrice | bond/BondStreamingService.hpp:80-110 | an unseen product's stream is stored with an add to every listener; a seen one keeps its first stream and every listener gets an update |
| Streaming.BondAlgoStreamServiceListener.Process | bond/BondStreamingService.hpp:117-127 | adds and updates publish the wrapped stream; removals do nothing |
| Streaming.BondPriceStreamsServiceListener.Process | bond/BondStreamingService.hpp:150-158 | adds and updates are persisted, removals not |
| Gui.RecordOf | bond/GUIService.hpp:48-55 | the record's bid is mid - spread/2 and its offer mid + spread/2, one spread apart |
| Gui.ThrottleSpacing | bond/GUIService.hpp:63-70 | published arrivals are in order, each more than 300 ms after the previous one (the first after construction), and `lastTick` is the last one's time |
| Gui.FirstArrivalAtConstructionDropped | bond/GUIService.hpp:63-69 | arrivals at 0, 100 and 350 ms after construction publish only the one at 350 ms |
| Gui.GUIService.constructor | bond/GUIService.hpp:59-61 | `lastTick` starts at construction time and the throttle argument is stored |
| Gui.GUIService.OnMessage | bond/GUIService.hpp:63-70 | publishes and resets `lastTick` iff more than 300 ms passed since it; otherwise nothing changes |
| Gui.BondPriceServiceListener.Process | bond/GUIService.hpp:76-84 | an add or update more than 300 ms after the last publication appends that price's GUI record and restarts the window; a sooner one leaves the output and the window as they were; removals change nothing |
| Inquiries.ParseInquiry | bond/BondInquiryService.hpp:66 | id field 1, BUY iff field 2 is "0", quantity field 3, price 0.0, RECEIVED; fewer than four fields is MissingField |
| Inquiries.Repeat | bond/BondInquiryService.hpp:116-118 | n copies of the value |
| Inquiries.QuoteDeliveries | bond/BondInquiryService.hpp:116-128 | the loop over i listeners makes i blocks of n + 1 notifications |
| Inquiries.QuoteDeliveriesBlocks | bond/BondInquiryService.hpp:116-128 | block k is the add to listener k of the stored entry (QUOTED for the first listener, DONE after that), followed by an update of the DONE entry to each of the n listeners |
| Inquiries.Quote | bond/BondInquiryService.hpp:109-119 | unknown id is "not found"; otherwise only that entry changes, takes the price, ends DONE with a listener (QUOTED without) and is published once per listener |
| Inquiries.Receive | bond/BondInquiryService.hpp:95-107 | the message is stored with `emplace`; QUOTED publishes a DONE copy and notifies updates; DONE does nothing more; RECEIVED publishes once per listener |
| Inquiries.NewInquiryLifecycle | bond/BondInquiryService.hpp:95-139 | with one listener a new RECEIVED inquiry ends stored DONE at 100.0, published once, after one add and one update |
| Inquiries.ResubmittedInquiryStaysQuoted | bond/BondInquiryService.hpp:98-106 | with no listener an inquiry stops at QUOTED, and resubmitting it publishes a DONE copy while the stored entry stays QUOTED |
| Inquiries.BondInquiryService.ConfirmStored | bond/BondInquiryService.hpp:98-106 | the re-entrant call on the stored entry makes it DONE, publishes it once and notifies updates |
| Inquiries.BondInquiryService.NotifyListeners | bond/BondInquiryService.hpp:125-129 | every listener receives exactly one update of the inquiry |
| Inquiries.BondInquiryService.HandToListener | bond/BondInquiryService.hpp:134-138 | one listener is handed the stored inquiry as an add, forces the stored entry to QUOTED, re-publishes it and notifies every listener of the update |
| Inquiries.BondInquiryService.HandToAll | bond/BondInquiryService.hpp:116-118 | the loop hands the QUOTED entry to every listener in turn: the entry ends DONE (QUOTED with no listener), is published once per listener, and the notifications are the blocks `QuoteDeliveries` describes |
| Inquiries.BondInquiryService.SendQuote | bond/BondInquiryService.hpp:109-119 | "not found" for an unknown id with nothing changed; otherwise store, output and notifications are those `Quote` describes |
| Inquiries.BondInquiryService.OnMessage | bond/BondInquiryService.hpp:95-107 | store, output and notifications are those `Receive` describes |
| Inquiries.BondInquiryServiceListener.Process | bond/BondInquiryService.hpp:136-143 | an add resubmits the inquiry forced to QUOTED; updates and removals do nothing |
| Inquiries.BondInquirySubscriber.Parse | bond/BondInquiryService.hpp:63-70 | the registry is looked up before the quantity is read; a line that parses is handed on as a RECEIVED inquiry, one that does not leaves the service untouched |
| Pipeline.FillMovesPosition | main.cpp:97-105 | a fill from a tight book moves the booked book of the position by the top quantity, selling on the bid and buying on the offer, and the PV01 by that amount times the product's PV01 |
| Pipeline.FillSigned | bond/BondTradeBookingService.hpp:93-99 | the trade booked for a fill from a tight book sells the top bid quantity when the engine crossed to the bid and buys the top offer quantity otherwise |
| Pipeline.TradeMovesRisk | bond/BondRiskService.hpp:80-83 | any trade moves its book, the aggregate position and therefore the risk quantity by its signed quantity, and the PV01 by that quantity times the product's PV01 |

## Left out

- File input and output: `read`, `append`, `Publish` and the `toString` serialisers are replaced by ghost output logs. The timestamps they write are not modelled, and neither are the `Subscribe` methods, which only start reading a file.
- The wall clock: the GUI takes the current time in milliseconds as a parameter, read once per message.
- Gui.GUIService.OnMessage: the second clock read that resets `lastTick` is taken to be the same instant as the first.
- IEEE floating point: prices, averages and PV01 are exact reals.
- `std::stod` and `std::stol`: only digit strings and plain decimals are read. Signs, exponents, a leading decimal point (`.5`), leading blanks and trailing characters come back as BadNumber.
- Numerals.Stod: the contract pins the value only for digit strings, not for decimals with a fractional part.
- 64-bit overflow: the order counter, the quantities and the position sums are unbounded integers.
- C++ object lifetime: the references to stack locals and the leaked query results are modelled by value.
- Inquiries.BondInquiryServiceListener.Process: the listener changes the caller's object by reference. This is modelled only where that object is the stored entry (`ConfirmStored`, called from `SendQuote`); elsewhere the forced state reaches only the message.
- Inquiries.BondInquiryService.SendQuote: every one of the service's listeners is taken to be a `BondInquiryServiceListener` on this same service, the only kind main.cpp registers on it (main.cpp:36-37). That is why `Quote` publishes the DONE entry once per listener. A listener of another kind, which would not resubmit, is not modelled.
- `Position` arithmetic: its source is not part of this model. +quantity for BUY and -quantity for SELL per book, with the aggregate as the sum over books, is a modelling choice. The same goes for the field values of a default-constructed `Bond`.
- The process start-up in main.cpp: the hard-coded bonds and the wiring are left out, apart from the chain that `Pipeline.FillMovesPosition` follows. Dispatching deliveries to listener objects is left to the caller, except for the inquiry service (see the `SendQuote` line above).
- The test-data generator script is not part of this model.
- Debug output to the console.
- MarketData.BondMarketDataService.AggregateDepth: a book whose side has zero total volume is excluded by a precondition, because the source divides by it unchecked.
- FileConnector.FractionalToDouble: when a price has a one-character tail, the source reads past the end of the string. The model reports MissingField there, not a value.
