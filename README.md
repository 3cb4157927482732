# Event ticketing front end: a Dafny model

This project models the client-side logic of an event-ticketing web front end.
Visitors browse events and promotions, pick tickets, apply a promo code, spend
loyalty points, create a transaction and upload a payment proof. Organizers
create events and promotions. Buyers review the events they attended.

The front end is a set of React components. The model keeps their logic and
drops the rendering. Each component becomes one Dafny module:

- **Pure computations** become functions with contracts:
  - the pricing pipeline;
  - the status labels and colours;
  - the countdown clock;
  - the form schemas and the issues they report;
  - the pager;
  - the image and link rules.
- **Components that keep state** (`useState`, URL query state, form values) become classes. Each handler is a method, and its `ensures` states the whole new state.

Four shared modules hold what several components use:

- `Options`: JavaScript's `?? / ||` message fallbacks.
- `Text`: `trim`, `padStart`, and decimal `String(n)` with its inverse.
- `JsMath`: `Math.min` / `Math.max`.
- `Validation`: what the zod schemas check, including the UUID shape.

Two modules hold the record types: `EventTypes` and `TransactionTypes`.

Everything the components receive from outside is a parameter of the model:

- server replies, as `Result` values;
- whether a session token exists, as a `bool`;
- the clock (`now`, the deadline in epoch milliseconds);
- the debounced search text;
- date parsing (`toTime: string -> Option<int>`, absent for an invalid date);
- locale formatting (`localeDate`).

Money amounts are integers of rupiah. A formatted `Rp` string is replaced by
the amount it formats.

## Model

| member | source | states |
|---|---|---|
| `TicketTypesList.QtyOf` | src/app/event/components/EventTicketTypesList.tsx:26 | definition, no contract of its own: `qtyMap[id] ?? 0`, the entry of the ticket or 0 when it has none |
| `TicketTypesList.OnInc` | src/app/event/components/EventTicketTypesList.tsx:25-29 | the next quantity is one more than the current one (a missing entry counts as 0), capped at the stock: below the stock one more, at or above it exactly the stock |
| `TicketTypesList.OnDec` | src/app/event/components/EventTicketTypesList.tsx:31-35 | the next quantity is one less, floored at 0; it is never negative, and it stays within a stock it was within |
| `TicketTypesList.IncDisabled` | src/app/event/components/EventTicketTypesList.tsx:57 | definition, no contract of its own: "+" is disabled at or above the stock; `TicketTypesList.IncEnabledIffItAdds` states that it is enabled exactly when a press adds one |
| `TicketTypesList.DecDisabled` | src/app/event/components/EventTicketTypesList.tsx:58 | definition, no contract of its own: "-" is disabled at or below zero; `TicketTypesList.DecEnabledIffItRemoves` states that it is enabled exactly when a press removes one |
| `TicketTypesList.IncEnabledIffItAdds` | src/app/event/components/EventTicketTypesList.tsx:57 | within the stock, "+" is enabled exactly when pressing it adds a ticket; a disabled press would leave the stock |
| `TicketTypesList.DecEnabledIffItRemoves` | src/app/event/components/EventTicketTypesList.tsx:58 | "-" is enabled exactly when pressing it removes a ticket |
| `TicketTypesList.DecUndoesInc` | src/app/event/components/EventTicketTypesList.tsx:25-35 | a decrement right after an increment below the stock restores the quantity |
| `TicketTypesList.IncUndoesDec` | src/app/event/components/EventTicketTypesList.tsx:25-35 | an increment right after a decrement from a positive quantity within the stock restores it |
| `TicketTypesList.Subtotal` | src/app/event/components/EventTicketTypesList.tsx:37-40 | the sum of quantity times price over all tickets; never negative when the quantities are not; 0 when no ticket was touched |
| `PurchaseSection.SelectedLines` | src/app/event/components/EventPurchaseSection.tsx:81-89 | exactly the tickets with a positive quantity, in ticket order (a subsequence of the tickets, and every ticket with a positive quantity appears), each with its quantity and `qty * price` |
| `PurchaseSection.LinesSubtotal` | src/app/event/components/EventPurchaseSection.tsx:91-93 | the sum of the line totals, non-negative when every line total is |
| `PurchaseSection.NothingSelectedIff` | src/app/event/components/EventPurchaseSection.tsx:165-168 | there are no selected lines (checkout is disabled, checkout does nothing) exactly when no ticket has a positive quantity |
| `PurchaseSection.SubtotalNonNegative` | src/app/event/components/EventPurchaseSection.tsx:91-93 | the purchase subtotal is never negative |
| `PurchaseSection.SubtotalsAgree` | src/app/event/components/EventTicketTypesList.tsx:37-40 | with non-negative quantities, the ticket list's subtotal over all tickets equals the purchase section's subtotal over the selected lines |
| `PurchaseSection.Discount` | src/app/event/components/EventPurchaseSection.tsx:95-98 | never negative and, for a non-negative subtotal, never above it; 0 without a promo; exactly the promo amount when that lies within the subtotal, exactly the subtotal when the promo is worth more, and 0 when either the amount or the subtotal is not positive |
| `PurchaseSection.Total` | src/app/event/components/EventPurchaseSection.tsx:101-103 | never negative; exactly `subtotal - discount` when the discount is within the subtotal |
| `PurchaseSection.PointsUsed` | src/app/event/components/EventPurchaseSection.tsx:106-109 | 0 with the toggle off; otherwise the balance capped at the total; never more than the balance or the total |
| `PurchaseSection.TotalAfterPoints` | src/app/event/components/EventPurchaseSection.tsx:112-114 | never negative; exactly `total - pointsUsed` when the points are within the total |
| `PurchaseSection.PricingPipeline` | src/app/event/components/EventPurchaseSection.tsx:95-114 | along the whole pipeline every figure stays in `[0, subtotal]` and each step subtracts exactly what it claims; a promo worth the whole subtotal or more leaves nothing to pay |
| `PurchaseSection.SummaryAgreesOnFinalTotal` | src/app/event/components/OrderSummary.tsx:85-87 | the order summary, fed this section's total and points, shows the same final total that goes into the draft |
| `PurchaseSection.CheckoutDraft` | src/app/event/components/EventPurchaseSection.tsx:177-202 | the draft has id and status "DRAFT" and the event's id; it takes the ticket id and quantity from the first selected line and the coupon from the applied promo; points are 0 with the toggle off; it has one ticket line per selected line, with that line's total, and the final total |
| `PurchaseSection.DraftFeedsCreate` | src/app/transactions/components/TransactionDetail.tsx:81-106 | for non-empty event and ticket ids, the checkout draft is a draft to the modal; with a token its create payload carries the event, the first line's ticket and quantity, the coupon and the points used; without a token the create fails with the missing-token error |
| `PurchaseSection.Purchase.constructor` | src/app/event/components/EventPurchaseSection.tsx:44-57 | the initial state: nothing chosen, no promo, points off, modal closed |
| `PurchaseSection.Purchase.CheckoutDisabled` | src/app/event/components/EventPurchaseSection.tsx:256 | definition, no contract of its own: checkout is disabled exactly when no line is selected; `PurchaseSection.NothingSelectedIff` states that this means no ticket has a positive quantity |
| `PurchaseSection.Purchase.SetQty` | src/app/event/components/EventPurchaseSection.tsx:77-79 | only the given ticket's quantity changes |
| `PurchaseSection.Purchase.OnPromoCodeChange` | src/app/event/components/EventPurchaseSection.tsx:225-229 | the code is replaced and any applied promo and error are dropped |
| `PurchaseSection.Purchase.ApplyPromo` | src/app/event/components/EventPurchaseSection.tsx:123-156 | a blank code only clears the error; with a subtotal of 0 or less the "choose a ticket first" error is set and nothing is sent; otherwise the reply sets the promo, or clears it and shows the server's message, the error's, or the fallback |
| `PurchaseSection.Purchase.ClearPromo` | src/app/event/components/EventPurchaseSection.tsx:158-162 | code, promo and error are all reset |
| `PurchaseSection.Purchase.OnToggleUsePoints` | src/app/event/components/EventPurchaseSection.tsx:246-254 | points are on exactly when requested and a token exists, so they are never on without a token |
| `PurchaseSection.Purchase.OnCheckout` | src/app/event/components/EventPurchaseSection.tsx:164-206 | nothing happens without a selected line; points on without a token are switched off and nothing else happens; otherwise the modal opens on the checkout draft of the current state |
| `PurchaseSection.Purchase.CloseTrx` | src/app/event/components/EventPurchaseSection.tsx:264 | the modal is closed |
| `OrderSummary.EstimatedEarnPoints` | src/app/event/components/OrderSummary.tsx:81 | the number of whole thousands in the non-negative part of the total, so 0 for any total under 1000 |
| `OrderSummary.TotalAfterPoints` | src/app/event/components/OrderSummary.tsx:85-87 | the total itself with the toggle off; otherwise never negative, never above a non-negative total, and exactly `total - pointsUsed` when the points are within the total |
| `OrderSummary.CanUsePoints` | src/app/event/components/OrderSummary.tsx:89 | definition, no contract of its own: a positive balance, at least one item and a positive total |
| `OrderSummary.ToggleRequest` | src/app/event/components/OrderSummary.tsx:161-165 | the click asks for a change exactly when a handler exists, the balance is positive, there are items and the total is positive; the request is always the opposite of the current value |
| `OrderSummary.ToggleDisabled` | src/app/event/components/OrderSummary.tsx:166 | definition, no contract of its own: no handler, or points not usable; `OrderSummary.ToggleActsIffEnabled` states that a click acts exactly when it is enabled |
| `OrderSummary.ToggleActsIffEnabled` | src/app/event/components/OrderSummary.tsx:161-166 | a click acts exactly when the toggle is not disabled |
| `OrderSummary.ApplyEnabled` | src/app/event/components/OrderSummary.tsx:227 | definition, no contract of its own: nothing pending and a trimmed code of at least two characters |
| `OrderSummary.ApplyEnabledMeansNotBlank` | src/app/event/components/OrderSummary.tsx:227 | an enabled Apply button never submits a blank code |
| `UploadCard.SecondsLeft` | src/app/transactions/components/UploadBuktiBayarCard.tsx:39 | the whole seconds left, `max(0, floor(ms / 1000))`: 0 below one second (negatives included), otherwise the `s` with `1000 s <= ms < 1000 s + 1000` |
| `UploadCard.MsToClock` | src/app/transactions/components/UploadBuktiBayarCard.tsx:38-44 | the countdown text has the form `hh:mm:ss` and reads back as exactly the whole seconds left |
| `UploadCard.Clock` | src/app/transactions/components/UploadBuktiBayarCard.tsx:40-43 | for any number of seconds the clock has the form `hh:mm:ss` and reading it back gives that number; minutes and seconds are below 60; the hours field is at least two digits |
| `UploadCard.FieldDigits` | src/app/transactions/components/UploadBuktiBayarCard.tsx:40-42 | a padded field is all digits, at least two of them, exactly two below 100, and reads back as its number |
| `UploadCard.ExpiredClockIsZero` | src/app/transactions/components/UploadBuktiBayarCard.tsx:38-39 | any remaining time under one second, negatives included, shows `00:00:00` |
| `UploadCard.IsExpired` | src/app/transactions/components/UploadBuktiBayarCard.tsx:99 | definition (no contract of its own): the server says `EXPIRED`, or the transaction awaits payment with no time left; `UploadCard.CanUpload` states how it rules out an upload |
| `UploadCard.CanUpload` | src/app/transactions/components/UploadBuktiBayarCard.tsx:99-100 | an upload is allowed exactly while awaiting payment with time left; an allowed upload is never expired |
| `UploadCard.StatusText` | src/app/transactions/components/UploadBuktiBayarCard.tsx:132-141 | "Loading..." without a transaction; the label of each of the six known codes; any other code unchanged |
| `UploadCard.StatusTextAgreesWithModal` | src/app/transactions/components/UploadBuktiBayarCard.tsx:132-141 | the card and the modal label a status alike exactly when it is not `CANCELED`, `WAITING_FOR_REVIEW` or `REVIEW_DONE` |
| `UploadCard.StatusColor` | src/app/transactions/components/UploadBuktiBayarCard.tsx:143-147 | green exactly for `WAITING_FOR_CONFIRMATION` and `PAID`; red exactly for `EXPIRED`, `CANCELED` and `REJECT`; neutral otherwise |
| `UploadCard.UploadableIsNeutral` | src/app/transactions/components/UploadBuktiBayarCard.tsx:99-100 | a transaction that can take an upload is shown in the neutral colour |
| `UploadCard.UploadErrorMessage` | src/app/transactions/components/UploadBuktiBayarCard.tsx:123-129 | the server's message when it is non-empty; otherwise the error's message, or "Upload gagal." |
| `UploadCard.Card.constructor` | src/app/transactions/components/UploadBuktiBayarCard.tsx:54-58 | the card starts with no file and a zero countdown |
| `UploadCard.Card.SelectedFileName` | src/app/transactions/components/UploadBuktiBayarCard.tsx:60-61 | the chosen file's name, or "" without one |
| `UploadCard.Card.SubmitShown` | src/app/transactions/components/UploadBuktiBayarCard.tsx:236-237 | definition, no contract of its own: the upload button is rendered exactly when `canUpload` holds; `UploadCard.CanUpload` states when that is |
| `UploadCard.Card.CountdownShown` | src/app/transactions/components/UploadBuktiBayarCard.tsx:157 | definition, no contract of its own: the countdown line is shown while the transaction awaits payment |
| `UploadCard.Card.Tick` | src/app/transactions/components/UploadBuktiBayarCard.tsx:85-97 | without a deadline nothing changes; otherwise the remaining time becomes `deadline - now` |
| `UploadCard.Card.OnFileChosen` | src/app/transactions/components/UploadBuktiBayarCard.tsx:203-207 | while an upload is allowed a chosen file replaces the field; an empty choice, or any choice while the input is disabled (`!canUpload`), leaves it |
| `UploadCard.Card.Submit` | src/app/transactions/components/UploadBuktiBayarCard.tsx:102-129 | with no file the schema's message; with `!canUpload` the refusal toast and nothing is sent; without a token the missing-token error; otherwise the reply decides; only a successful upload resets the file and takes the re-fetched status |
| `TransactionDetail.MapStatus` | src/app/transactions/components/TransactionDetail.tsx:31-40 | the label of each of the seven known codes; any other string unchanged |
| `TransactionDetail.CanceledIsNotMapped` | src/app/transactions/components/TransactionDetail.tsx:31-40 | `CANCELED` is not among the known codes and is shown raw |
| `TransactionDetail.MapStatusNeverDraft` | src/app/transactions/components/TransactionDetail.tsx:31-40 | the label is "DRAFT" exactly when the code is "DRAFT" |
| `TransactionDetail.IsDraft` | src/app/transactions/components/TransactionDetail.tsx:81-89 | false with no record; otherwise true exactly when the status is "DRAFT" or the id is "DRAFT", "" or 0 |
| `TransactionDetail.BuildPayload` | src/app/transactions/components/TransactionDetail.tsx:92-106 | a payload exists exactly when there is a record, a token, and non-empty event and ticket ids; the guards fail in source order; the payload copies the ids and coupon, defaults `qty` to 1 and `points_used` to 0 |
| `TransactionDetail.MapCreated` | src/app/transactions/components/TransactionDetail.tsx:112-139 | the record built from the reply: its id, the mapped status (defaulting to awaiting payment), the payload's ids, quantity and coupon, no points, one ticket line, the server's total |
| `TransactionDetail.CreatedIsNotDraft` | src/app/transactions/components/TransactionDetail.tsx:81-89 | a created record with a real id and a non-draft status is no longer a draft, so the create button goes away |
| `TransactionDetail.Modal.Display` | src/app/transactions/components/TransactionDetail.tsx:58 | definition, no contract of its own: `serverTrx ?? trx`, the server record once created, otherwise the record passed in |
| `TransactionDetail.Modal.Renders` | src/app/transactions/components/TransactionDetail.tsx:158 | definition, no contract of its own: the modal renders only while open and with a record to display |
| `TransactionDetail.Modal.UploadCardShown` | src/app/transactions/components/TransactionDetail.tsx:236-237 | definition, no contract of its own: the upload step is shown while the modal renders (line 158), the card flag is set and a server record is held; `TransactionDetail.Modal.OnOpenChanged` states that closing hides it |
| `TransactionDetail.Modal.constructor` | src/app/transactions/components/TransactionDetail.tsx:53-56 | no server record and no upload card |
| `TransactionDetail.Modal.OnOpenChanged` | src/app/transactions/components/TransactionDetail.tsx:61-66 | closing clears the server record and hides the upload card, so the modal, once reopened, displays the record it is given and not the upload card; opening changes nothing, and only a successful `CreateTransaction` shows the card again |
| `TransactionDetail.Modal.OnTrxIdChanged` | src/app/transactions/components/TransactionDetail.tsx:68-71 | a new transaction id clears the server record and hides the upload card, so the modal displays the new record and not the upload card |
| `TransactionDetail.Modal.CreateTransaction` | src/app/transactions/components/TransactionDetail.tsx:91-156 | a request is sent exactly when the payload builds from `serverTrx ?? trx`; a successful reply stores the mapped record and shows the upload card; anything else leaves the state unchanged |
| `Validation.IntMinIssues` | src/app/create-event/components/WritePage.tsx:29 | no issue exactly when the number is an integer and at least the bound; the integer issue comes first and the bound's message last, all on the field's path |
| `Validation.MinLengthIssues` | src/app/create-event/components/WritePage.tsx:34-39 | no issue exactly when the text is long enough; otherwise one issue with the given message |
| `Validation.MinValueIssues` | src/app/create-event/components/WritePage.tsx:28 | no issue exactly when the number reaches the bound; otherwise one issue with the given message |
| `Validation.FileIssues` | src/app/create-event/components/WritePage.tsx:40 | no issue exactly when a file is chosen |
| `Validation.IsUuid` | src/app/create-promotion/components/WritePromo.tsx:34 | definition, no contract of its own: zod's `.uuid()` shape, 36 characters with dashes at 8, 13, 18 and 23 and hexadecimal digits elsewhere; `Validation.UuidExamples` pins one accepted and one rejected value |
| `Validation.UuidExamples` | src/app/create-promotion/components/WritePromo.tsx:34 | a well-formed UUID passes the UUID check and the empty selection does not |
| `CreateEventForm.TextIssues` | src/app/create-event/components/WritePage.tsx:34-36 | no issue exactly when the title has at least 5 characters, the category is an integer of at least 1 and the description has at least 10 characters; never the ticket-count or date-order issue |
| `CreateEventForm.RequiredIssues` | src/app/create-event/components/WritePage.tsx:37-40 | no issue exactly when both dates and the location are non-empty and an image is chosen; never the ticket-count or date-order issue |
| `CreateEventForm.ScalarIssues` | src/app/create-event/components/WritePage.tsx:34-40 | no issue exactly when every field before the ticket array passes its rule; never the ticket-count or date-order issue |
| `CreateEventForm.TicketArrayIssues` | src/app/create-event/components/WritePage.tsx:41 | no issue exactly when there is at least one row and every row is valid; the "at least one ticket" issue is reported exactly when the array is empty |
| `CreateEventForm.TicketIssues` | src/app/create-event/components/WritePage.tsx:26-30 | a row has no issue exactly when its name is non-empty, its price is at least 0 and its quota is an integer of at least 1; every issue names that row |
| `CreateEventForm.RowsIssues` | src/app/create-event/components/WritePage.tsx:41 | no issue exactly when every row is valid; each issue names a row in range |
| `CreateEventForm.FieldIssues` | src/app/create-event/components/WritePage.tsx:33-42 | no field issue exactly when every field rule holds, including at least one ticket and every ticket valid |
| `CreateEventForm.Issues` | src/app/create-event/components/WritePage.tsx:32-46 | no issue exactly when the form is valid, the end not before the start included; a failed date check adds its issue on `endDate` last, and only once an image is chosen |
| `CreateEventForm.DefaultFormIssues` | src/app/create-event/components/WritePage.tsx:79-88 | the default form reports exactly the required fields and the default row's name; its price 0 and quota 1 pass |
| `CreateEventForm.Submit` | src/app/create-event/components/WritePage.tsx:96-133 | an invalid form is rejected with its issues; a valid form without a token sends nothing and shows the fallback toast; otherwise the reply decides, with the server's message or the fallback |
| `CreateEventForm.FormState.constructor` | src/app/create-event/components/WritePage.tsx:77-89 | the form starts at the default values, with one row |
| `CreateEventForm.FormState.Append` | src/app/create-event/components/WritePage.tsx:308 | exactly one default row is added at the end and nothing else changes |
| `CreateEventForm.FormState.RemoveOffered` | src/app/create-event/components/WritePage.tsx:325 | definition, no contract of its own: the remove button is offered only while there is more than one row; `CreateEventForm.FormState.Remove` requires it |
| `CreateEventForm.FormState.Remove` | src/app/create-event/components/WritePage.tsx:325-335 | removal, offered only with more than one row, drops that row, keeps the order of the others, and leaves at least one row |
| `CreateEventForm.FormState.SetRow` | src/app/create-event/components/WritePage.tsx:91-94 | editing a row changes only that row |
| `CreateEventForm.KeptRowsNeverEmpty` | src/app/create-event/components/WritePage.tsx:41 | a form that keeps at least one row never reports the "at least one ticket" issue |
| `CreatePromotionForm.Issues` | src/app/create-promotion/components/WritePromo.tsx:28-36 | no issue exactly when the code and name are non-empty, the amount is at least 1, the quota is an integer of at least 1, the expiry is set, the event id is a UUID and an image is chosen; a non-UUID event id is reported with its message |
| `CreatePromotionForm.DefaultFormIssues` | src/app/create-promotion/components/WritePromo.tsx:47-55 | the defaults pass the amount and quota checks; the empty code, name, expiry, event and image are what is reported |
| `CreatePromotionForm.SubmitEnableRule` | src/app/create-promotion/components/WritePromo.tsx:237 | the button starts disabled; when enabled, nothing is pending and an event is chosen; a valid form with nothing pending enables it |
| `CreatePromotionForm.Submit` | src/app/create-promotion/components/WritePromo.tsx:73-106 | an invalid form is rejected with its issues; a valid form without a token shows the missing-token error; otherwise the reply decides, with the server's message, the error's, or the fallback |
| `CreatePromotionForm.SubmitDisabled` | src/app/create-promotion/components/WritePromo.tsx:237 | definition, no contract of its own: `isPending || !event_id`; `CreatePromotionForm.SubmitEnableRule` states its consequences |
| `ReviewEventForm.IdIssues` | src/app/review/component/ReviewEventForm.tsx:18-19 | no issue exactly when both ids are UUIDs; never a rating or comment issue |
| `ReviewEventForm.Issues` | src/app/review/component/ReviewEventForm.tsx:17-22 | no issue exactly when both ids are UUIDs, the rating is in `[1, 5]` and the comment has at least 3 characters; each rating bound and the comment issue is reported exactly when it is broken |
| `ReviewEventForm.DefaultIsRejectedForComment` | src/app/review/component/ReviewEventForm.tsx:52-61 | the default rating passes, the empty comment does not, and the submit button starts disabled |
| `ReviewEventForm.SubmitDisabled` | src/app/review/component/ReviewEventForm.tsx:137 | definition, no contract of its own: an invalid form or a pending post; `ReviewEventForm.DefaultIsRejectedForComment` and `ReviewEventForm.ResetDisablesSubmit` state when it holds |
| `ReviewEventForm.FormState.constructor` | src/app/review/component/ReviewEventForm.tsx:52-61 | the form starts with the given ids, five stars and no comment |
| `ReviewEventForm.FormState.OnRatingChange` | src/app/review/component/ReviewEventForm.tsx:100-106 | only the rating changes |
| `ReviewEventForm.FormState.OnCommentChange` | src/app/review/component/ReviewEventForm.tsx:118-125 | only the comment changes |
| `ReviewEventForm.FormState.Submit` | src/app/review/component/ReviewEventForm.tsx:63-83 | an invalid review is rejected; without a token the missing-token error and nothing is sent; a successful post keeps the ids and rating and empties only the comment; anything else changes nothing |
| `ReviewEventForm.ResetDisablesSubmit` | src/app/review/component/ReviewEventForm.tsx:74 | after the reset the button is disabled again, with the rating and ids kept |
| `StarRating.DisplayValue` | src/app/review/component/StarRating.tsx:19 | the hovered star when set, otherwise the committed value |
| `StarRating.Stars` | src/app/review/component/StarRating.tsx:23-25 | five stars, star `k` lit exactly when `k` is at most the displayed value |
| `StarRating.LitPrefix` | src/app/review/component/StarRating.tsx:23-25 | the first `n` stars with the same rule |
| `StarRating.LitPrefixCount` | src/app/review/component/StarRating.tsx:23-25 | of the first `n` stars, exactly the displayed value clamped to `[0, n]` are lit |
| `StarRating.LitCount` | src/app/review/component/StarRating.tsx:23-25 | a value `v` in `[0, 5]` lights exactly `v` stars, and any value lights its clamp |
| `StarRating.Click` | src/app/review/component/StarRating.tsx:31-32 | a disabled button reports nothing; an enabled one reports its star, which is in `[1, 5]`, is lit itself, and leaves the next star unlit |
| `StarRating.ClickLightsUpToStar` | src/app/review/component/StarRating.tsx:19-32 | once the clicked star is the value and the mouse has left, exactly that many stars are lit |
| `StarRating.Input.constructor` | src/app/review/component/StarRating.tsx:18 | no star is hovered at first |
| `StarRating.Input.MouseEnter` | src/app/review/component/StarRating.tsx:33 | hovering records the star only when enabled |
| `StarRating.Input.MouseLeave` | src/app/review/component/StarRating.tsx:34 | leaving clears the hover, so the display reverts to the value |
| `ReviewCard.LitStars` | src/app/event-organizer-all-event-page/component/ReviewCard.tsx:32 | the rating clamped to `[0, 5]`: above 5 gives 5, below 0 gives 0 |
| `ReviewCard.RenderStars` | src/app/event-organizer-all-event-page/component/ReviewCard.tsx:33-36 | exactly five stars are rendered |
| `ReviewCard.CardMatchesInput` | src/app/event-organizer-all-event-page/component/ReviewCard.tsx:31-36 | the card lights the same stars as the review form's input for that value, exactly the clamped rating of them |
| `ReviewCard.Avatar` | src/app/event-organizer-all-event-page/component/ReviewCard.tsx:54-57 | the profile image when present and not blank after trimming, otherwise the fallback picture |
| `ReviewCard.AvatarNeverBlank` | src/app/event-organizer-all-event-page/component/ReviewCard.tsx:54-57 | the avatar is never blank |
| `ReviewCard.FormatDate` | src/app/event-organizer-all-event-page/component/ReviewCard.tsx:20-29 | "-" for a missing or empty date; the raw text for one that does not parse; the locale rendering otherwise |
| `Pagination.TotalPages` | src/components/ui/PaginationSection.tsx:28 | the ceiling of `total / take`: for a positive `take`, the least page count whose pages hold the total (0 for no items); the JavaScript ceiling for a negative one |
| `Pagination.HandlePrev` | src/components/ui/PaginationSection.tsx:21-25 | emits `page - 1` exactly when `page > 1`, so never a page below 1 |
| `Pagination.NextEnabled` | src/components/ui/PaginationSection.tsx:27-30 | definition, no contract of its own: the page is below `Math.ceil(total / take)`, with take 0 meaning an unbounded page count when there are items; `Pagination.HandleNext` emits exactly when it holds |
| `Pagination.HandleNext` | src/components/ui/PaginationSection.tsx:27-33 | emits `page + 1` exactly when the page is below the page count, so never past the last page |
| `Pagination.NextStopsAtLastPage` | src/components/ui/PaginationSection.tsx:27-33 | with no items, or on the last page, "next" does nothing; when it acts, items remain beyond the current page |
| `Pagination.NextThenPrev` | src/components/ui/PaginationSection.tsx:21-33 | "previous" right after an enabled "next" returns to the starting page |
| `Pagination.PrevThenNext` | src/components/ui/PaginationSection.tsx:21-33 | "next" right after "previous" from a page in range returns to it |
| `Pagination.ZeroTakeIsUnbounded` | src/components/ui/PaginationSection.tsx:28-31 | with a page size of 0 and some items, "next" is enabled on every page |
| `EventList.PositiveFilter` | src/app/event-organizer-all-event-page/component/EventList.tsx:43-44 | a filter is sent exactly when present and positive, and then unchanged |
| `EventList.ParamsFor` | src/app/event-organizer-all-event-page/component/EventList.tsx:37-44 | page, take and search are always sent; the category exactly when positive; the organizer exactly when present and positive |
| `EventList.KeyFinerThanParams` | src/app/event-organizer-all-event-page/component/EventList.tsx:35 | keys that differ only in a non-positive category request the same parameters, so the key is never coarser than the request |
| `EventList.List.constructor` | src/app/event-organizer-all-event-page/component/EventList.tsx:21-29 | page 1, no search, no category; the page size is the `take` prop or 3 when it is left out, the search box is shown unless `showSearch` is false, and the organizer is the prop's |
| `EventList.List.BuildParams` | src/app/event-organizer-all-event-page/component/EventList.tsx:36-44 | the parameters the query builds are those its key asks for |
| `EventList.List.Key` | src/app/event-organizer-all-event-page/component/EventList.tsx:35 | definition, no contract of its own: the query key of page, debounced search, category, page size and organizer; `EventList.ParamsFor` states the request it stands for |
| `EventList.List.OnClickPagination` | src/app/event-organizer-all-event-page/component/EventList.tsx:54-56 | the page becomes the one the pager reports |
| `EventList.List.ClearCategory` | src/app/event-organizer-all-event-page/component/EventList.tsx:58-61 | the category becomes 0 and the page 1; the search is kept |
| `EventList.List.OnSearchChange` | src/app/event-organizer-all-event-page/component/EventList.tsx:70-73 | the search text is replaced and the page goes back to 1 |
| `EventList.List.CategoryBannerShown` | src/app/event-organizer-all-event-page/component/EventList.tsx:66-109 | definition, no contract of its own: the active-category banner shows only inside the search area, so when `showSearch` is on and the category is positive |
| `EventList.ClearedCategoryIsNotSent` | src/app/event-organizer-all-event-page/component/EventList.tsx:89 | with no category the request carries no category filter and the banner is hidden |
| `TransactionStatusCard.Code` | src/app/transactions/components/TransactionStatusCard.tsx:10 | every filter value has a non-empty URL code |
| `TransactionStatusCard.CodeInjective` | src/app/transactions/components/TransactionStatusCard.tsx:10 | distinct values have distinct codes, so at most one card is active |
| `TransactionStatusCard.IsActive` | src/app/transactions/components/TransactionStatusCard.tsx:24 | definition, no contract of its own: a card is active when the URL filter equals its code; `TransactionStatusCard.CodeInjective` makes at most one card active |
| `TransactionStatusCard.NextSelected` | src/app/transactions/components/TransactionStatusCard.tsx:24-32 | clicking an active card clears the filter; clicking an inactive card selects its value; the card is active afterwards exactly when it was not before |
| `TransactionStatusCard.ToggleProperties` | src/app/transactions/components/TransactionStatusCard.tsx:29-34 | two clicks from no filter return to no filter; a click on another card switches the filter to it |
| `TransactionStatusCard.Filter.constructor` | src/app/transactions/components/TransactionStatusCard.tsx:18-22 | no filter, page 1 |
| `TransactionStatusCard.Filter.Click` | src/app/transactions/components/TransactionStatusCard.tsx:29-34 | the filter toggles and the page goes back to 1 |
| `Carousel.At` | src/app/browse-event/components/PromotionList.tsx:46-47 | an index yields a promotion exactly when it is inside the list |
| `Carousel.Step` | src/app/browse-event/components/PromotionList.tsx:39 | a tick lands inside `[0, len)` |
| `Carousel.Visible` | src/app/browse-event/components/PromotionList.tsx:44-49 | at most two promotions are shown whole; otherwise two cards, the one at the start index and the next one with wrap-around, at two distinct positions |
| `Carousel.Iterate` | src/app/browse-event/components/PromotionList.tsx:36-42 | the start index after any number of ticks from 0 is inside the list |
| `Carousel.IterateClosedForm` | src/app/browse-event/components/PromotionList.tsx:39 | after `k` ticks the start index is `2k mod len` |
| `Carousel.WindowAt` | src/app/browse-event/components/PromotionList.tsx:44-49 | the window at a start index in the list shows the promotion there and the next one |
| `Carousel.StartAfterHalf` | src/app/browse-event/components/PromotionList.tsx:39 | after `j / 2` ticks the window starts at `j` (even `j`) or just before it (odd `j`) |
| `Carousel.EveryPromotionShown` | src/app/browse-event/components/PromotionList.tsx:39-48 | with more than two promotions, ticking from 0 shows every promotion: promotion `j` after `j / 2` ticks |
| `Carousel.IndexAfterDataAsWritten` | src/app/browse-event/components/PromotionList.tsx:33-34 | definition, no contract of its own: the component as written keeps the start index whatever the new list; the as-written half of the finding |
| `Carousel.ShrinkingListBreaksWindow` | src/app/browse-event/components/PromotionList.tsx:33-49 | keeping the start index when the list shrinks leaves an `undefined` card in the window |
| `Carousel.IndexAfterData` | src/app/browse-event/components/PromotionList.tsx:33-34 | the start index is kept while it is inside the new list and otherwise reset to 0 |
| `Carousel.Rotator.constructor` | src/app/browse-event/components/PromotionList.tsx:33-34 | an empty list and start index 0 |
| `Carousel.Rotator.Tick` | src/app/browse-event/components/PromotionList.tsx:36-42 | with more than two promotions the start index advances by one step; otherwise it stays; a valid state stays valid |
| `Carousel.Rotator.OnData` | src/app/browse-event/components/PromotionList.tsx:33-34 | corrected behaviour (see "## Findings"; the component as written never resets the index): the list is replaced and the start index is kept only while it is inside it, so a valid state stays valid |
| `Carousel.ValidShowsOnlyPromotions` | src/app/browse-event/components/PromotionList.tsx:44-49 | in a valid state every shown card is a real promotion |
| `OrganizerPromotionList.Fetched` | src/app/event-organizer-all-event-page/component/PromotionList.tsx:18-29 | organizer 0 fetches nothing and the list is empty; otherwise the reply is the list |
| `OrganizerPromotionList.ResetShowsFirstPair` | src/app/event-organizer-all-event-page/component/PromotionList.tsx:44-50 | at start index 0 the window is the first two promotions of a longer list, and the whole list otherwise, with no `undefined` card |
| `OrganizerPromotionList.Rotator.constructor` | src/app/event-organizer-all-event-page/component/PromotionList.tsx:29-30 | the organizer's list at start index 0 |
| `OrganizerPromotionList.Rotator.Tick` | src/app/event-organizer-all-event-page/component/PromotionList.tsx:36-42 | with more than two promotions the start index advances by one step; otherwise it stays; a valid state stays valid |
| `OrganizerPromotionList.Rotator.OnOrganizerChange` | src/app/event-organizer-all-event-page/component/PromotionList.tsx:32-34 | a new organizer's list with the start index back at 0, valid whatever came before |
| `OrganizerPromotionList.Rotator.OnData` | src/app/event-organizer-all-event-page/component/PromotionList.tsx:29-30 | a refetch replaces the list and keeps the start index; the state stays valid only while that index is inside the new list |
| `OrganizerPromotionList.ValidShowsOnlyPromotions` | src/app/event-organizer-all-event-page/component/PromotionList.tsx:44-50 | in a valid state every shown card is a real promotion, two of them for a list longer than two |
| `HomePromotionList.TickAlternates` | src/components/ui/PromotionList.tsx:18-21 | the fixed list has four entries, so rotation runs and the start index alternates between 0 and 2 |
| `HomePromotionList.WindowsPartition` | src/components/ui/PromotionList.tsx:28-34 | the two windows together are the whole list: every promotion is shown once, in one window |
| `HomePromotionList.IdsDistinct` | src/components/ui/PromotionList.tsx:6-11 | the four sample promotions have distinct ids, so card keys never repeat |
| `HomePromotionList.Rotator.constructor` | src/components/ui/PromotionList.tsx:14 | the carousel starts at index 0 |
| `HomePromotionList.Rotator.Tick` | src/components/ui/PromotionList.tsx:20-22 | a tick moves 0 to 2 and 2 to 0 |
| `HomePromotionList.ShownIsAHalf` | src/components/ui/PromotionList.tsx:28-34 | exactly two real promotions are shown: the first half or the second half of the list |
| `CategoryCard.ImageSrc` | src/app/browse-event/components/CatagoryCard.tsx:14-19 | the field itself when it is non-empty and starts with "http" or "/"; otherwise "/thumbnail.jpeg" |
| `CategoryCard.ImageIsAlwaysALocation` | src/app/browse-event/components/CatagoryCard.tsx:14-19 | the image always starts with "http" or "/" and is never empty |
| `CategoryCard.Utf8` | src/app/browse-event/components/CatagoryCard.tsx:23-25 | a code point becomes one to four bytes; it is one byte, itself, exactly when below 128 |
| `CategoryCard.PercentBytes` | src/app/browse-event/components/CatagoryCard.tsx:23-25 | each byte becomes three characters, `%` and two upper-case hexadecimal digits |
| `CategoryCard.EncodeUriComponent` | src/app/browse-event/components/CatagoryCard.tsx:23-25 | definition, no contract of its own: `encodeURIComponent`, character by character; `CategoryCard.EncodedIsUrlSafe`, `CategoryCard.UnreservedUnchanged` and `CategoryCard.EncodeExamples` state what it produces |
| `CategoryCard.EncodeChar` | src/app/browse-event/components/CatagoryCard.tsx:23-25 | an unreserved character is kept; any other becomes at least one `%XX` group |
| `CategoryCard.EncodedIsUrlSafe` | src/app/browse-event/components/CatagoryCard.tsx:23-25 | the encoding yields only unreserved characters and `%`, so the value can neither end the parameter nor start a fragment |
| `CategoryCard.UnreservedUnchanged` | src/app/browse-event/components/CatagoryCard.tsx:23-25 | a text of unreserved characters is left unchanged |
| `CategoryCard.EncodeExamples` | src/app/browse-event/components/CatagoryCard.tsx:23-25 | a space, an accented letter (two UTF-8 bytes) and `&` are percent-encoded |
| `CategoryCard.Link` | src/app/browse-event/components/CatagoryCard.tsx:23-25 | the link starts with "/browse-event?category=" |
| `CategoryCard.LinkCarriesId` | src/app/browse-event/components/CatagoryCard.tsx:23-25 | the link is the prefix followed by the id's own decimal text, and reading that text back gives the id |
| `CategoryCard.Tile` | src/app/browse-event/components/CatagoryCard.tsx:13-25 | the tile's image and link are those of its category's field and id |
| `Options.FailureToast` | src/app/event/components/EventPurchaseSection.tsx:146-149 | the server's message when present, else the error's message, else the fallback |
| `Text.Trim` | src/app/event/components/EventPurchaseSection.tsx:126 | a slice of the text that neither starts nor ends with whitespace, everything outside it being whitespace: leading and trailing whitespace dropped, the rest kept |
| `Text.TrimEmptyIff` | src/app/event/components/EventPurchaseSection.tsx:126-127 | the trimmed code is empty exactly when every character is whitespace |
| `Text.TrimIdempotent` | src/app/event-organizer-all-event-page/component/ReviewCard.tsx:55 | trimming twice is trimming once |
| `Text.PadStart` | src/app/transactions/components/UploadBuktiBayarCard.tsx:40-42 | the text right-aligned in the given width with the fill on the left, never truncated |
| `Text.NatToString` | src/app/transactions/components/UploadBuktiBayarCard.tsx:40-42 | the decimal digits of a number, with no leading zero, reading back as the number |
| `Text.IntToString` | src/app/browse-event/components/CatagoryCard.tsx:24 | a non-empty text of digits and `-` |
| `Text.ParseInt` | src/app/event-organizer-all-event-page/component/EventList.tsx:26-28 | a number is read only from a non-empty text |
| `Text.IntToStringRoundTrip` | src/app/browse-event/components/CatagoryCard.tsx:24 | reading an integer's decimal text gives the integer back |

## Left out

- HTTP and caching: every request, the react-query cache and its invalidation, and `FormData` building. Replies are parameters, and a pending state is modelled only where it changes a rule (the Apply button, the submit buttons).
- Timers and debounce: the countdown interval, the carousel intervals and the 500 ms search debounce. Each tick is a method, and the debounced search text is an input.
- Dates and locales:
  - date parsing is the parameter `toTime`, and locale rendering is `localeDate`;
  - `toISOFromDatetimeLocal` and the `Intl.NumberFormat` currency strings are not modelled: amounts are kept as integers.
- Floating point:
  - prices are whole rupiah (`nat`), and string prices coerced by `Number` are not modelled;
  - ratings are integers, so `Math.round` in the review card is the identity here;
  - zod's coerced numbers are `real` (`NaN` and `Infinity` are not modelled);
  - a `payment_deadline` that does not parse would make the countdown `NaN`; the model's deadline is an integer or absent.
- `Pagination.TotalPages`: a page size of 0 is excluded here. `Pagination.NextEnabled` models it on its own: JavaScript divides to `Infinity` for a positive total and to `NaN` for a zero total.
- `Validation.IsUuid`: the UUID check is the 8-4-4-4-12 hexadecimal pattern in either case. The exact pattern depends on the zod version, which the sources do not fix.
- Text lengths are counted in Unicode code points, while JavaScript counts UTF-16 units. They differ only outside the Basic Multilingual Plane.
- `Text.ParseInt`: a strict decimal reader, used as the inverse of `String(n)`. The URL parser of the browse page also accepts text after the digits; that leniency is not modelled.
- `OrganizerPromotionList.Rotator.OnOrganizerChange`: the new list and the reset to 0 are applied together. In the component the reset is an effect that runs after the first render with the new organizer's list. When that list comes from the cache, it is rendered once with the old start index.
- Sessions and authentication (the next-auth callbacks, the persisted auth store): a token is a `bool` input.
- The transaction modal's failure toast (`TransactionDetail.tsx` lines 149-155) is not modelled: a failed create leaves the modal's state unchanged, which `TransactionDetail.Modal.CreateTransaction` states; the same `||` fallback is modelled for the upload card as `UploadCard.UploadErrorMessage`.
- Layout, navigation after success (`router.push`) and toasts on success: not part of the logic.
- The review form's rating and comment inputs are disabled while a post is pending; the model has no pending state for them.
- The upload card's submit button is shown exactly when `canUpload`; its `disabled` state (react-hook-form validity, a pending upload) is not modelled, and a press without a file is the schema's rejection in `UploadCard.Card.Submit`.

## Findings

| source | as written | input that shows it | evidently intended | confidence | as-written member | corrected member |
|---|---|---|---|---|---|---|
| src/app/browse-event/components/PromotionList.tsx:33-49 | the start index is kept when the promotions list is refetched, so it can point past the end of a shorter list and `visiblePromos` then holds `undefined`, whose `coupon_id` the card reads | five promotions at start index 4, refetched as three: the first card is `promotions[4]`, which is `undefined` | a start index outside the new list goes back to 0, so every shown card is a promotion | not executed | `Carousel.ShrinkingListBreaksWindow` | `Carousel.IndexAfterData` |
