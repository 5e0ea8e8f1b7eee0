# Verified model of the Shop, master and calendar migrations

The repository keeps its hardest rules in its database migrations: PL/pgSQL triggers that guard
payments, fiscal documents, returns and stock, and data repairs written in SQL and Python. This
project models those rules in Dafny and proves what they are for.

How the database is modelled:

* A table is a map, a set or (for the append-only movement ledger) a sequence. A statement together
  with its BEFORE triggers, check constraints and unique indexes is a guarded step. A DEFERRABLE
  constraint trigger is a check that the statement queues and that is evaluated on the final tables
  at commit; a transaction whose statement raises or whose check fails leaves the tables as they were.
  `Transactions` defines this once; every protocol instantiates it with its own `Step` and `Check`.
* The theorems about protocols are about all histories of transactions from any committed state (or
  all runs of statements where the source has no deferred check).
* The trigger sets also appear as classes whose fields are the tables and whose methods are the
  triggers, in the branch order of the source and with its loops. Each is proved against the same step
  function, and `Transact` against `Commit`.
* Algorithms (redirect chains, window union, price shares, category trees, JSON printer) are pure
  functions or loops, as in the source, each with an independent reference definition.

| module | what it covers |
|---|---|
| `CheckboxReturns` | partial returns of a Checkbox sale: cumulative kopeck allocation, refunds, the three return bases |
| `SaleDocuments` | several accepted sale documents of one order: when the law and the bound by the payment survive them |
| `CheckboxOperations` | durable provider operations: dispatch fence, acceptances, one unresolved operation per register |
| `ShopFiscal` | the local sibling: one acceptance per payment |
| `PaymentResolution` | full cancellation of a paid order before handover, and invoice reviews |
| `ParcelStock`, `ParcelObservations` | inspected parcels against the stock ledger; the observation log of a parcel |
| `FiscalOwnership` | document, automation and QR attempt compete for one order; QR projection of provider truth |
| `MasterCheckout` | live checkout of a master's sale: dispatch, invoice, payment, receipt, observation, handover |
| `RedirectChains`, `ServiceSubstitution`, `AvailabilityUnion`, `CalendarRepair` | the redirect calendar repair |
| `CanonicalJson` | the canonical printer behind every stored proof hash |
| `PriceAllocation` | proportional booking prices with the remainder on the last item |
| `CategoryTree` | the category-tree fixpoint and the two removals |
| `Transactions`, `Prelude` | statements, commits and histories; shared vocabulary |

## Where the code does less than one would expect

Each of these is a lemma (a concrete input, or a statement about all inputs), next to the exact condition under which
the property does hold.

* **Two sale documents of one order** (`TwoDocumentsBreakTheLaw`, `LawIffDocumentsAgree`). `used` counts all
  returns of the order while the share is taken of one document. In an order ready for returns the cumulative
  law holds of an item in every run, for every accepted document that lists it, exactly when these documents
  agree on its quantity and total; two documents of the same payment need not.
* **Money back beyond the sale** (`ReturnedMoneyBounded`). The returns against one document stay within its
  lines' total in every run, whatever else is sold and returned, exactly when it has no negative line; the
  guards do not ask for that.
* **Money back beyond the payment** (`TwoDocumentsRefundTwice`, `PaymentBoundsReturnsExactly`). Two documents of one
  payment of 110, one for the combs and one for the brushes, let 220 be returned and refunded. In an order ready
  for returns whose documents each sell for the payment, no run returns (or refunds) more than was paid exactly
  when no accepted document has a negative line and all of them list every positively priced item with the same
  quantity and total.
* **Stamp and cancel in one UPDATE** (`FencedThroughoutExactly`, `StampAndCancelAdmitted`). The fence looks
  at the old dispatch stamp, so one statement may stamp a queued operation and cancel it.
* **A local fiscal document inserted as cancelled and dispatched** (`CancelledNeverDispatchedExactly`).
  INSERT has no status check; for documents that start queued, cancelled means never dispatched.
* **Observation order** (`AllPairsIffIdsAscend`). Each observation is compared with the one of the
  greatest id only; all pairs are ordered exactly when ids are inserted in ascending order.
* **Early stock shipment** (`AllOrNothingExactly`, `EarlyShipmentAdmitted`). The dispatch looks for parcel
  shipments and handovers, not at the ledger: a shipment row from before the dispatch is the one way to
  leave none-or-all.
* **Rows without an order** (`RowWithoutOrderAdmitted`, `FreezeExactly`). The dispatch's stock fence reads the
  order column only; a row that names just the item passes it. The goods of a dispatched sale leave by nothing
  but their full shipments, each once, exactly when every row written on them names the order.

## Model

| member | source | states |
|---|---|---|
| CheckboxReturns.CumulativeAllocation | alembic/versions/0125_shop_checkbox.py:191-231 | After any run of admitted returns against one sale document, every item's returned kopecks total exactly floor(T*used/Q), with 0 <= used <= Q; hence all of T when everything is back |
| CheckboxReturns.ShareBounds | alembic/versions/0125_shop_checkbox.py:227-229 | The cumulative floor share lies between 0 and T (in T's sign), is 0 at 0 used and T at all used |
| CheckboxReturns.ReturnedMoneyBounded | alembic/versions/0125_shop_checkbox.py:191-239 | In every run, whatever else is posted, accepted and returned, the returns against a document amount to at most its lines' total if and only if no line of it has a negative total |
| CheckboxReturns.AmountsBounded | alembic/versions/0125_shop_checkbox.py:208-230 | In any reached state the amounts of the returns against a document without negative lines never exceed its lines' total, also beside returns against other documents |
| CheckboxReturns.CappedReturn | alembic/versions/0125_shop_checkbox.py:220-229 | An admitted return, against whichever document, keeps what came back against document d within d's share of all units back, up to d's quantity |
| CheckboxReturns.AmountsByItem | alembic/versions/0125_shop_checkbox.py:208-210 | The returns' amounts are the sum over items of the kopecks returned for each: nothing is returned outside the lines |
| CheckboxReturns.RefundsWithinReturns | alembic/versions/0125_shop_checkbox.py:234-239 | On every run all refund facts together never exceed the amounts of the admitted returns |
| CheckboxReturns.SalesImmutable | alembic/versions/0125_shop_checkbox.py:199-231 | On every run a posted sale snapshot stays as it is and its acceptance is never withdrawn |
| CheckboxReturns.OneLawForAllBases | alembic/versions/0127_shop_np_returns.py:23-29 | When a parcel or cancellation return is admitted nothing was returned before, and there the cumulative and the one-shot rule admit the same lines |
| CheckboxReturns.FirstReturnRule | alembic/versions/0127_shop_np_returns.py:208-213 | The parcel's floor(T*q/Q) line rule is the cumulative rule at used = 0, both ways |
| CheckboxReturns.OnlyReturn | alembic/versions/0128_shop_payment_resolutions.py:347-356 | A parcel or cancellation return stays the only return of its order |
| SaleDocuments.TwoDocumentsBreakTheLaw | alembic/versions/0125_shop_checkbox.py:216-229 | A run from an unsold order posts and accepts two documents of its one payment in turn (both of 110, with two items' totals swapped) and admits two returns after which 2 units of an item are used and 55 returned: the share of neither document |
| SaleDocuments.PaymentBoundsReturnsExactly | alembic/versions/0125_shop_checkbox.py:191-239 | In every run of an order ready for returns, short of accepting another document, the returns, and likewise the refunds, amount to at most the payment if and only if no accepted document has a negative line and all of them list every positively priced item with the same quantity and total |
| SaleDocuments.AgreementBoundsReturns | alembic/versions/0125_shop_checkbox.py:208-230 | In any reached state whose accepted documents agree in that way, all returns together amount to at most the payment |
| SaleDocuments.DisagreementOverpays | alembic/versions/0125_shop_checkbox.py:191-232 | Whenever they do not agree, a run of at most two admitted returns brings back more than was paid: the positive lines beside a negative one, each item from its dearer document, or a whole document and then the other's remaining units |
| SaleDocuments.DearerIsMore | alembic/versions/0125_shop_checkbox.py:208-210 | Two priced lists of equal total that differ in an item: taking each item from the list in which it is dearer is worth more than either |
| SaleDocuments.TwoDocumentsRefundTwice | alembic/versions/0125_shop_checkbox.py:191-239 | A run from an unsold order paid 110 returns and refunds 220, although no line is negative and no item is in two documents |
| SaleDocuments.LawIffDocumentsAgree | alembic/versions/0125_shop_checkbox.py:191-231 | In every run of an order ready for returns, short of accepting another document, the law holds of an item for every accepted document that lists it if and only if these documents agree on its quantity and total |
| SaleDocuments.AgreeingDocumentsKeepLaw | alembic/versions/0125_shop_checkbox.py:191-231 | In every run from an unsold order the law holds of an item for all accepted documents that list it while they agree |
| SaleDocuments.SharesAgreeExactly | alembic/versions/0125_shop_checkbox.py:227-229 | Two lines of one quantity have equal totals if and only if their floor shares are equal at every number of units |
| SaleDocuments.WholeReturn | alembic/versions/0125_shop_checkbox.py:191-232 | Everything a returnable document sold can come back in one admitted return, for each line's whole total |
| CheckboxReturns.ReturnDesk.LinesMatchAllocation | alembic/versions/0125_shop_checkbox.py:217-230 | The trigger's loop over the return's lines accepts exactly the lines that match the cumulative allocation |
| CheckboxReturns.ReturnDesk.InsertReturn | alembic/versions/0125_shop_checkbox.py:191-232 | The insert trigger admits exactly the returns of the step function, appends the row or leaves everything as it was, and keeps the allocation law |
| CheckboxReturns.ReturnDesk.InsertRefund | alembic/versions/0125_shop_checkbox.py:234-239 | The refund trigger, branch by branch; afterwards the law still holds and all refunds together are covered by the returns |
| CheckboxOperations.OneUnresolvedPerRegister | alembic/versions/0125_shop_checkbox.py:55-56 | On every run a register has at most one unresolved operation, and an accepted one was dispatched and has an acceptance for exactly its own snapshot |
| CheckboxOperations.DispatchFence | alembic/versions/0125_shop_checkbox.py:113-122 | From any reached state on: identities, first dispatch stamps, acceptances and terminal rows never change, and a dispatched operation that is updated is never queued or cancelled again |
| CheckboxOperations.FenceAsStateExactly | alembic/versions/0125_shop_checkbox.py:116-120 | "No dispatched operation is queued or cancelled" survives a statement if and only if the statement does not stamp and retract at once |
| CheckboxOperations.FencedThroughoutExactly | alembic/versions/0125_shop_checkbox.py:113-122 | Over any run the fence holds in every state passed through if and only if no statement stamps and retracts at once, and then also in the end |
| CheckboxOperations.StampAndCancelAdmitted | alembic/versions/0125_shop_checkbox.py:116-120 | Such a statement is admitted: a concrete one |
| CheckboxOperations.OperationDesk.WriteOperation | alembic/versions/0125_shop_checkbox.py:113-156 | The operation trigger with both unique indexes, and that it keeps the fence and the one-unresolved invariant |
| CheckboxOperations.OperationDesk.Accept | alembic/versions/0125_shop_checkbox.py:158-172 | The acceptance trigger, branch by branch; it accepts dispatched, unresolved operations only and keeps the fence, the acceptance bindings and all earlier facts |
| CheckboxOperations.OperationDesk.Confirm | alembic/versions/0125_shop_checkbox.py:103-112 | No payment is confirmed beside an unresolved operation of the bound register |
| ShopFiscal.OneAcceptancePerPayment | alembic/versions/0123_shop_fiscal.py:58-61 | However documents start, at most one provider acceptance ever exists among one payment's sale documents |
| ShopFiscal.AcceptanceIsFinal | alembic/versions/0123_shop_fiscal.py:87-135 | Once accepted, a document keeps its identity and acceptance, is only ever unknown or issued, and no other document takes its unique places |
| ShopFiscal.CancelledNeverDispatchedExactly | alembic/versions/0123_shop_fiscal.py:87-126 | "Cancelled documents were never dispatched" survives a statement if and only if it does not insert a cancelled dispatched row |
| ShopFiscal.CancelledNeverDispatched | alembic/versions/0123_shop_fiscal.py:87-126 | On every run of documents that start queued, a cancelled one was never dispatched |
| ShopFiscal.DispatchedCancelledAdmitted | alembic/versions/0123_shop_fiscal.py:87-126 | The INSERT of a cancelled dispatched document is admitted: a concrete one |
| ShopFiscal.FiscalRegister.WriteDocument | alembic/versions/0123_shop_fiscal.py:87-127 | The document trigger with its active-document indexes admits exactly the step function's rows |
| PaymentResolution.FinalizedCancellation | alembic/versions/0128_shop_payment_resolutions.py:220-254 | A paid cancellation that any history finalizes has, in every committed state from then on, order total = payment = return = refund = amount proved by the accepted cheque, status cancelled, no handover, fulfilment or completion and net reserved zero; one transaction n of the history finalized it on fulfilled obligations, and every reservation owned by its items at that commit is released by exactly one row of exactly the owned quantity |
| PaymentResolution.FinalizedWithObligations | alembic/versions/0128_shop_payment_resolutions.py:254-254 | A transaction after which a case is finalized has committed only on tables that meet all its obligations |
| PaymentResolution.ObligationsCover | alembic/versions/0128_shop_payment_resolutions.py:229-252 | The obligations cover every owned item: each has its one release row, on this and every longer ledger |
| PaymentResolution.CancellationIsFinal | alembic/versions/0128_shop_payment_resolutions.py:276-319 | In every later state all of that still holds with the same case, finalization and total, no other payment, and not one new ledger row touches the order or its items |
| PaymentResolution.PaidOrdersCancelByRefund | alembic/versions/0128_shop_payment_resolutions.py:362-364 | A confirmed order that is found cancelled later has a finalized, fully refunded paid cancellation |
| PaymentResolution.ClosedReviewStaysUnpaid | alembic/versions/0128_shop_payment_resolutions.py:65-72 | An order whose invoice review was finalized never has a payment again and stays cancelled |
| PaymentResolution.ReservationsReturned | alembic/versions/0128_shop_payment_resolutions.py:243-252 | Without the finalization's own release row the ledger shows exactly the owned quantity as reserved: it releases what was there, once |
| PaymentResolution.NothingMoves | alembic/versions/0128_shop_payment_resolutions.py:308-320 | A row that the deferred stock fence lets pass after a finalization does not touch its order, whichever of several cases is the latest |
| PaymentResolution.FenceReleases | alembic/versions/0128_shop_payment_resolutions.py:311-319 | The fence admits a touching row only as a listed release of the order's own finalization |
| PaymentResolution.WriteCancels | alembic/versions/0128_shop_payment_resolutions.py:362-364 | The order triggers let a confirmed order become cancelled only with an unpaid closure or a finalization that can close |
| PaymentResolution.CommitKeeps | alembic/versions/0128_shop_payment_resolutions.py:73-341 | Every transaction keeps the committed-state invariant (money, status, stock of every finalized case) and rewrites no fact |
| PaymentResolution.CancellationReachable | alembic/versions/0128_shop_payment_resolutions.py:220-254 | A refunded order is finalized by one transaction that finalizes, cancels and releases |
| PaymentResolution.ResolutionDatabase.WriteOrder | alembic/versions/0128_shop_payment_resolutions.py:293-298 | The three BEFORE UPDATE triggers on orders admit exactly the step function's updates |
| PaymentResolution.ResolutionDatabase.EveryReservationReleased | alembic/versions/0128_shop_payment_resolutions.py:243-252 | The loop over the order's items accepts exactly when every item's net reserve is zero and every owned one has its listed release row |
| PaymentResolution.ResolutionDatabase.ReservedOf | alembic/versions/0128_shop_payment_resolutions.py:245-245 | The aggregate over the ledger is the net reserve of the item |
| PaymentResolution.ResolutionDatabase.ValidateFinalization | alembic/versions/0128_shop_payment_resolutions.py:220-253 | The deferred trigger accepts exactly the finalizations that meet all obligations |
| PaymentResolution.ResolutionDatabase.Transact | alembic/versions/0128_shop_payment_resolutions.py:254-254 | Running a transaction's statements and then its queued checks is the commit function, rollback included, and keeps the committed invariant |
| ParcelStock.ReturnedEqualsInspected | alembic/versions/0127_shop_np_returns.py:219-251 | In every committed state of every history the customer-return stock of each item of a cased order equals its inspected restock quantity, is at most the canonical shipment, and has no other source |
| ParcelStock.SoleSource | alembic/versions/0127_shop_np_returns.py:316-331 | Every customer-return row of such an item is the restock line of that case's one receipt, with its key and quantity |
| ParcelStock.ContentsKept | alembic/versions/0127_shop_np_returns.py:204-207 | A case's lines stay within the shipped quantities, whatever is written to the ledger later |
| ParcelStock.CommitKeeps | alembic/versions/0127_shop_np_returns.py:172-251 | Every transaction keeps case contents and inspections backed by the ledger |
| ParcelStock.ParcelDesk.InsertStock | alembic/versions/0127_shop_np_returns.py:316-331 | The stock trigger admits exactly the step function's rows and keeps the ledger invariant |
| ParcelStock.ParcelDesk.ContentsShipped | alembic/versions/0127_shop_np_returns.py:194-207 | The loop over the case's lines, with the shipment quantity and the shipped aggregate per line, accepts exactly the valid contents |
| ParcelStock.ParcelDesk.ShippedOf | alembic/versions/0127_shop_np_returns.py:204-206 | The aggregate over the ledger is the canonically shipped quantity |
| ParcelStock.ParcelDesk.ReceiptMatchesLedger | alembic/versions/0127_shop_np_returns.py:236-248 | The loop over the receipt's lines accepts exactly when each restock is its own ledger row and no other line has one |
| ParcelStock.ParcelDesk.Transact | alembic/versions/0127_shop_np_returns.py:218-251 | Statements, deferred checks and rollback are the commit function and keep the committed invariant |
| ParcelObservations.AllPairsIffIdsAscend | alembic/versions/0127_shop_np_returns.py:136-170 | For a list of ids, every admitted log with these ids relates all pairs (no earlier event on either leg, equal times mean equal raw status) if and only if the ids ascend |
| ParcelObservations.RefusalChain | alembic/versions/0127_shop_np_returns.py:136-170 | An unpaid COD case's log starts with original status 103 and contains only 103 and 102, each dated no earlier than 30 seconds before the dispatch |
| ParcelObservations.CaseHistory.Observe | alembic/versions/0127_shop_np_returns.py:136-171 | The trigger's loop over the two legs admits exactly the observations that follow the latest one |
| FiscalOwnership.SoleOwner | alembic/versions/0119_mock_monobank_qr.py:100-141 | In every reachable state an order has at most one owner among live unlinked sale documents, uncancelled automations and active QR attempts, and a linked canonical receipt is issued for that owner's order |
| FiscalOwnership.PaidStaysBacked | alembic/versions/0119_mock_monobank_qr.py:192-211 | In every committed state a paid QR attempt has paid provider truth and a payment of exactly the consented amount, an issued one its issued receipt, and no later state loses any of it |
| FiscalOwnership.CommitKeeps | alembic/versions/0118_ettn_canonical_receipts.py:32-118 | Every transaction keeps sole ownership, sound links, the QR projection and the acceptance of linked receipts, and regresses no terminal state |
| FiscalOwnership.ProjectionCarried | alembic/versions/0119_mock_monobank_qr.py:192-211 | A projection that held goes on holding when neither its attempt nor its truth is rewritten |
| FiscalOwnership.StepSound | alembic/versions/0119_mock_monobank_qr.py:52-141 | Every statement, admitted or not, loses no fact, regresses no terminal state and leaves every order with at most one owner |
| FiscalOwnership.DocumentOwners | alembic/versions/0117_mock_ettn_automation.py:108-124 | Writing an admitted fiscal document leaves every order with at most one owner |
| FiscalOwnership.AutomationOwners | alembic/versions/0118_ettn_canonical_receipts.py:32-92 | Writing an admitted automation leaves every order with at most one owner |
| FiscalOwnership.AttemptOwners | alembic/versions/0119_mock_monobank_qr.py:52-82 | Writing an admitted QR attempt leaves every order with at most one owner |
| FiscalOwnership.OwnershipDatabase.DocumentFits | alembic/versions/0114_mock_checkbox.py:69-86 | The three document triggers and the active indexes, branch by branch, accept exactly the step function's rows |
| FiscalOwnership.OwnershipDatabase.AutomationFits | alembic/versions/0117_mock_ettn_automation.py:63-84 | The automation's constraints, its update trigger and both ownership triggers, branch by branch, accept exactly the step function's rows |
| FiscalOwnership.OwnershipDatabase.AttemptFits | alembic/versions/0119_mock_monobank_qr.py:52-82 | The attempt trigger and the active index, branch by branch, accept exactly the step function's rows |
| FiscalOwnership.OwnershipDatabase.Transact | alembic/versions/0119_mock_monobank_qr.py:142-211 | Statements, deferred checks and rollback are the commit function and keep the committed invariant |
| MasterCheckout.AllOrNothingExactly | alembic/versions/0133_master_mono_live.py:359-380 | In every committed state of every history a dispatched order has none or all of owner handover, completed status and exactly one full shipment row per item (and no other row that names the order since the dispatch), if and only if no shipment row preceded the dispatch or the sale shows a handover |
| MasterCheckout.EarlyIsFixed | alembic/versions/0133_master_mono_live.py:154-188 | Whether a shipment row preceded the dispatch never changes after it |
| MasterCheckout.HandedOverIsPaid | alembic/versions/0133_master_mono_live.py:263-277 | Any sign of a handover comes with a receipted, provider-proved payment of exactly the dispatched basket's quantity times price |
| MasterCheckout.HandoverIsFinal | alembic/versions/0133_master_mono_live.py:302-357 | A handed-over sale stays so in every later state and gets no further stock row |
| MasterCheckout.ReversalBlocksHandover | alembic/versions/0133_master_mono_live.py:333-335 | A synthetic sale whose money was reversed before the handover is never handed over |
| MasterCheckout.ProviderNeverRegresses | alembic/versions/0131_master_mono.py:36-52 | The synthetic provider's payment and receipt truth only move forward, under one receipt identity |
| MasterCheckout.BasketAddsUp | alembic/versions/0133_master_mono_live.py:170-175 | The sum of totals the dispatch checks is the sum of quantity times price |
| MasterCheckout.EarlyShipmentAdmitted | alembic/versions/0133_master_mono_live.py:154-188 | A dispatch after a stock shipment is admitted and commits to neither none nor all: a concrete one |
| MasterCheckout.RowWithoutOrderAdmitted | alembic/versions/0133_master_mono_live.py:343-344 | For every dispatched order's item a row without order column that takes goods off stock is admitted and commits |
| MasterCheckout.FenceExactly | alembic/versions/0133_master_mono_live.py:340-357 | An admitted row on an item of a dispatched order is that item's full shipment by the owner if and only if it names the order |
| MasterCheckout.RowsOnGoodsExactly | alembic/versions/0133_master_mono_live.py:340-358 | In every committed state of every history a row written since the dispatch on the order's items is its item's one shipment if and only if it names the order |
| MasterCheckout.FreezeExactly | alembic/versions/0133_master_mono_live.py:340-358 | In every committed state of every history the goods of a dispatched order have left by nothing but their full shipments, each once, if and only if every row written on them since names the order |
| MasterCheckout.HandoverReachable | alembic/versions/0133_master_mono_live.py:280-380 | A receipted sale is handed over, completed and shipped by one transaction |
| MasterCheckout.CommitKeeps | alembic/versions/0133_master_mono_live.py:280-380 | After every transaction any sign of a handover is a whole one, and dispatches, goods and facts stay |
| MasterCheckout.SignsQueued | alembic/versions/0133_master_mono_live.py:378-380 | Over a transaction every sign of a handover is an old one or was written by a statement that queued the completion check |
| MasterCheckout.CheckoutDatabase.Dispatch | alembic/versions/0133_master_mono_live.py:154-189 | The dispatch trigger admits exactly the step function's requests |
| MasterCheckout.CheckoutDatabase.SumTotals | alembic/versions/0133_master_mono_live.py:170-170 | The aggregate over the basket is its total and, for valid lines, what the goods cost |
| MasterCheckout.CheckoutDatabase.WriteOrder | alembic/versions/0133_master_mono_live.py:305-336 | The owner trigger on orders admits exactly the step function's updates |
| MasterCheckout.CheckoutDatabase.Transact | alembic/versions/0133_master_mono_live.py:359-380 | Statements, deferred checks and rollback are the commit function and keep the committed invariant |
| RedirectChains.NextIsFresh | alembic/versions/0059_repair_redirected_master_calendars.py:61-72 | Each step of the recursive query visits a new master or sets the cycle flag, so it ends on every redirect graph |
| RedirectChains.AcceptedIffEveryRedirectEnds | alembic/versions/0059_repair_redirected_master_calendars.py:86-125 | The checks pass if and only if every redirecting master's redirects end, after finitely many hops, at an active master through active masters |
| RedirectChains.AcceptedLeads | alembic/versions/0059_repair_redirected_master_calendars.py:77-125 | Then its mapped target is that end: active, unredirected, with every hop after the source active |
| RedirectChains.TargetUnique | alembic/versions/0059_repair_redirected_master_calendars.py:77-84 | A source has exactly one target |
| RedirectChains.EffectiveIdempotent | alembic/versions/0059_repair_redirected_master_calendars.py:270-275 | Mapping twice equals mapping once |
| RedirectChains.EndsWithoutRepeats | alembic/versions/0059_repair_redirected_master_calendars.py:68-72 | A chain that ends visits no master twice |
| RedirectChains.ReachesEnd | alembic/versions/0059_repair_redirected_master_calendars.py:50-84 | The query has a row for every hop and its terminal row is the end |
| ServiceSubstitution.SubstituteActive | alembic/versions/0059_repair_redirected_master_calendars.py:154-265 | Every accepted service maps to an active service of the target |
| ServiceSubstitution.OwnServiceKept | alembic/versions/0059_repair_redirected_master_calendars.py:154-215 | A service that already is the target's own active one maps to itself |
| ServiceSubstitution.NeverRemapped | alembic/versions/0059_repair_redirected_master_calendars.py:302-311 | If the substitute of a selected service is itself selected it is that service: the simultaneous update never remaps an item it has mapped |
| CalendarRepair.DisjointnessPreserved | alembic/versions/0059_repair_redirected_master_calendars.py:267-329 | Pairwise disjoint live bookings per master stay pairwise disjoint |
| CalendarRepair.ConflictCheckExact | alembic/versions/0059_repair_redirected_master_calendars.py:267-300 | The moved calendars are free of double bookings if and only if the overlap check passes and the bookings that stay are free of them: the check aborts no repair that could be made |
| CalendarRepair.ServicesSubstituted | alembic/versions/0059_repair_redirected_master_calendars.py:302-329 | Services of moved bookings become active services of the target, one to one, and the items' unique index holds |
| CalendarRepair.OffersConflictFree | alembic/versions/0059_repair_redirected_master_calendars.py:334-458 | After the repair one offer per request, calendar and start, no hold on an affected calendar meets a confirmed booking, and two holds that meet were not moved |
| CalendarRepair.BlocksFollow | alembic/versions/0059_repair_redirected_master_calendars.py:460-487 | Future blocked time follows to the effective calendar, whole and without duplicate rows |
| CalendarRepair.AvailabilityPreserved | alembic/versions/0059_repair_redirected_master_calendars.py:489-559 | A moment is open on a calendar after the repair if and only if it was open before on a master that resolves to it |
| CalendarRepair.WindowsApart | alembic/versions/0059_repair_redirected_master_calendars.py:489-538 | Future windows of a target calendar have a strict gap between them |
| CalendarRepair.CalendarDatabase.MoveItems | alembic/versions/0059_repair_redirected_master_calendars.py:302-311 | Updating the items row by row is the simultaneous substitution |
| CalendarRepair.CalendarDatabase.UnionWindows | alembic/versions/0059_repair_redirected_master_calendars.py:489-559 | Collecting, deleting and inserting windows leaves the untouched ones and exactly the merged ones, each once |
| CalendarRepair.CalendarDatabase.Upgrade | alembic/versions/0059_repair_redirected_master_calendars.py:23-559 | The migration repairs everything or, if a check raises, leaves the tables as they were |
| AvailabilityUnion.MergePreservesCoverage | alembic/versions/0059_repair_redirected_master_calendars.py:489-538 | The union covers exactly the moments some window covered, for any windows (duplicates, nesting, touching ends, empty ones) |
| AvailabilityUnion.MergedApart | alembic/versions/0059_repair_redirected_master_calendars.py:489-538 | Any two merged windows have a strict gap between them |
| AvailabilityUnion.IslandHasNoGap | alembic/versions/0059_repair_redirected_master_calendars.py:489-538 | Inside an island every moment between its starts and ends is covered |
| AvailabilityUnion.IslandsApart | alembic/versions/0059_repair_redirected_master_calendars.py:489-538 | A window of an earlier island ends strictly before one of a later island starts |
| AvailabilityUnion.GroupByIsGrouping | alembic/versions/0059_repair_redirected_master_calendars.py:489-538 | The grouped rows are exactly one per island with its least start and greatest end |
| AvailabilityUnion.SortSorts | alembic/versions/0059_repair_redirected_master_calendars.py:489-538 | Ordering a master's windows is sorted and a permutation |
| CanonicalJson.RoundTrip | alembic/versions/0126_shop_payments.py:31-36 | An independent reader turns every printed value back into that value |
| CanonicalJson.Injective | alembic/versions/0126_shop_payments.py:31-36 | Equal canonical texts are equal values |
| CanonicalJson.HashBindsProof | alembic/versions/0126_shop_payments.py:31-36 | With a hash that does not collide, proof hashes are equal if and only if the proofs are |
| CanonicalJson.PrefixFree | alembic/versions/0126_shop_payments.py:31-36 | A text splits into a printed value and a rest that starts with no digit in at most one way |
| CanonicalJson.OrderedIsSorted | alembic/versions/0126_shop_payments.py:33-34 | Object keys are printed once each, in the order of the collation |
| CanonicalJson.PrintReads | alembic/versions/0126_shop_payments.py:31-36 | Printed anywhere before a rest that starts with no digit, a value is read back with the rest ahead |
| PriceAllocation.PricesConserveTotal | alembic/versions/0054_add_booking_service_prices.py:23-77 | The stored prices of every booking with items sum exactly to its target total |
| PriceAllocation.PricesNearFloorShare | alembic/versions/0054_add_booking_service_prices.py:23-77 | Every item but the last stores its floor share, the last at most item_count - 1 more; none is negative for non-negative totals and prices |
| PriceAllocation.NumberIsCount | alembic/versions/0054_add_booking_service_prices.py:23-77 | item_number = item_count picks exactly the greatest row of a booking |
| CategoryTree.TreeIds | alembic/versions/0094_remove_workplace_keep_combs.py:28-42 | The frontier loop ends and returns exactly the categories under its roots, for any parent graph |
| CategoryTree.CleanAttributes | alembic/versions/0094_remove_workplace_keep_combs.py:45-76 | The loop over a product's paths keeps, shortens and drops exactly the specified ones |
| CategoryTree.CleaningIsFinal | alembic/versions/0094_remove_workplace_keep_combs.py:45-76 | Cleaned paths contain none under the removed root, and cleaning again changes nothing |
| CategoryTree.WholeTreesOrphanNothing | alembic/versions/0092_remove_clipper_trimmer_categories.py:49-79 | Deleting whole trees leaves no category whose parent was deleted |
| CategoryTree.KeptSubtreeOrphansNothing | alembic/versions/0094_remove_workplace_keep_combs.py:79-165 | Deleting the root's tree minus the kept subtree, with the kept root detached, leaves no orphan |
| CategoryTree.KeptTreeIntact | alembic/versions/0094_remove_workplace_keep_combs.py:101-165 | The kept root's subtree is the same before and after |
| CategoryTree.Catalog.RemoveClippers | alembic/versions/0092_remove_clipper_trimmer_categories.py:49-79 | The migration removes exactly the trees of the named roots and their products |
| CategoryTree.Catalog.RemoveWorkplaceKeepCombs | alembic/versions/0094_remove_workplace_keep_combs.py:79-165 | The migration removes exactly the root's tree minus the kept one, or changes nothing when it refuses |
| CategoryTree.Catalog.CleanProducts | alembic/versions/0094_remove_workplace_keep_combs.py:79-165 | Every product's paths are the cleaned ones |

## Left out

Across the model:

* Row locks, deadlocks and isolation: each statement with its triggers is one atomic step.
* SHA-256 is a value compared for equality (injective where a lemma needs it); JSON extraction, regular expressions and type checks on proof fields are typed records with the fields the properties need.
* Profile, organisation, cashier, merchant, authority and transport identities are folded into one profile identity and a test flag where they only have to agree.
* Integer widths: amounts and quantities are unbounded, and numeric division is exact floor division; PostgreSQL's numeric quotients carry a limited scale for very large operands.
* Downgrades, provider calls, workers, schedulers, seeds, names, message texts, audits and created/updated stamps.
* The parallel guards of 0120, 0121, 0122, 0124 and 0130 beyond what 0128 needs of them, and the volume grouping of 0046.
* Where a guard has extra conjuncts that no property uses, the model admits more than the code; the safety theorems hold of the code's fewer steps a fortiori. Foreign-key actions on deleted orders and items are not modelled.

By member:

- CheckboxReturns.ReturnDesk.InsertReturn: one order at a time; approval previews, unresolved operations and the shipment rows of pre-handover parcels are left to the other modules.
- SaleDocuments.LawIffDocumentsAgree: an order is ready when every accepted document's lines are distinct, positive in quantity and covered by the order's items, its register is open, and it sells for something.
- SaleDocuments.PaymentBoundsReturnsExactly: the accepted documents' lines are taken to sell for exactly the payment; the triggers compare the document's amount with the payment, not its lines.
- CheckboxReturns.OneLawForAllBases: physical receipts of pickup returns (0125:240-272) and deletion of order items are not modelled.
- CheckboxOperations.OperationDesk.WriteOperation: receipts (documents) of operations appear in PaymentResolution only.
- ParcelStock.ReturnedEqualsInspected: the receipt's observation, freshness and snapshot conditions are not part of it.
- ParcelStock.CommitKeeps: nor are the observation, freshness and evidence of a receipt, and of a case its provenance, profile and money columns (the price rule of a paid parcel is in CheckboxReturns).
- ParcelStock.ParcelDesk.ContentsShipped: the financial facts that an unpaid parcel excludes and the original sale of a paid one are not modelled here.
- ShopFiscal.FiscalRegister.WriteDocument: the preview, payment and return rows that a document must repeat are not modelled; neither property depends on them.
- ParcelObservations.CaseHistory.Observe: carrier proof fields other than event time and raw status of the two legs are not modelled.
- FiscalOwnership.SoleOwner: returns and refunds of simulated sales, approval commands and snapshot equality are not modelled.
- PaymentResolution.FinalizedCancellation: invoice corrections, observation proofs and the conditions that demand a financial exception are left out; an exception may be written for any invoice review. Order deletion and the payment_method column are not modelled.
- PaymentResolution.PaidOrdersCancelByRefund: unpaid closures are reduced to what they demand of money and status (no payment, cancelled).
- MasterCheckout.AllOrNothingExactly: `dispatchedAt` is an instrumentation of the model, not a column; the PDF artifacts and the receipt identities shared with the Shop are not modelled; a transaction's now() is a clock that a statement may only move forward.
- CalendarRepair.CalendarDatabase.Upgrade: window row ids and their aggregated stamps are not modelled; lower-cased and trimmed service titles are a column.
- CalendarRepair.CalendarDatabase.UnionWindows: the merged windows of a target are a set; two islands with the very same start and end, which only windows that end before they start can form, are inserted as one row where the migration inserts two.
- CategoryTree.Catalog.RemoveWorkplaceKeepCombs: collisions that renaming a slug could cause are not modelled, and a missing attribute list is the empty one.
- CanonicalJson.RoundTrip: numbers are integers; the key order is any total order.
- PriceAllocation.PricesConserveTotal: amounts are whole units, as the column stores them.
