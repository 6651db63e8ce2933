# Star-store order lifecycle, modelled in Dafny

This project models the order lifecycle of the star store
(`functions/src/star-store.ts`). The lifecycle has two handlers:

- **Confirm payment** (`sendOrderNotification`). It checks the payment
  gateway's signature verdict. It then writes the order record with status
  `pending` under the gateway order id. Last, it posts a Markdown summary
  to the operator's chat with two inline buttons, `confirm-<orderId>` and
  `reject-<orderId>`. Each step has its own early result.
- **Decision callback** (`recieveTelegramCallback`). It checks the shape of
  the chat update and splits the button token on `-`. It looks the order up
  and writes status `done` or `rejected`. Once that write succeeds, it edits
  the notification so the summary carries a new header.

The orders collection (`tenants/star-store/orders`) is a `map<string, Order>`.
Each external effect is an input:

- the signature verifier's verdict;
- how the awaited record write ended;
- how the notification post ended;
- whether the status update succeeded.

Every post and edit request the handlers issue to the chat is appended, in
order, to a ghost `outbox`, whether or not the chat accepted it.

Files:

- `wrappers.dfy`: `Option`, which stands for JavaScript's `undefined`.
- `text.dfy`: JavaScript's `split`, `indexOf` and first-occurrence `replace`
  on strings.
- `messages.dfy`: the action tokens, how the callback parses them, the
  summary template and its three headers.
- `orders.dfy`: the records; the two handlers as pure step functions
  (`ConfirmPayment`, `HandleCallback`); the class `StarStore`, whose methods
  follow the source step by step and are proved equal to those functions;
  lemmas about confirm-then-decide sequences.

The model keeps these behaviours of the code, although an order lifecycle is usually meant to avoid them:

- Confirming an order id a second time overwrites the record. The record goes
  back to `pending`, even after a decision, and a second notification is
  posted (line 121).
- Nothing makes `done` or `rejected` final. Any later button press writes its
  status again (lines 242-267).
- The callback does not answer every update. If the update has no token,
  `split` is called on `undefined` and throws. If the token has no `-` or its
  order id is empty, the store's document-reference call throws on the
  undefined or empty id. Either way the handler throws before it answers
  (`Reply.Unanswered`). Every other path answers 200.
- A write whose promise resolves has stored the record. When the resolved
  value is falsy, the handler still reports "not added to the database"
  (lines 121-130), and the model keeps the record in that case.
- The token parse keeps only the segment between the first and second `-`.
  An order id that contains `-` therefore addresses a different key.

## Model

| member | source | states |
|---|---|---|
| Text.Split | functions/src/star-store.ts:200-201 | `split("-")` yields at least one part, no part contains the separator, and joining the parts with the separator gives back the token. These facts fix the parts uniquely. |
| Text.IndexOf | functions/src/star-store.ts:247 | The result is the first index at which the pattern occurs, or none when it occurs nowhere. |
| Messages.ActionOf | functions/src/star-store.ts:242-255 | Only the words "confirm" and "reject" select a decision. The decision selected is the one named by that word. |
| Messages.DecisionButtons | functions/src/star-store.ts:136-143 | The notification carries exactly two buttons, with tokens `confirm-<orderId>` and `reject-<orderId>`. |
| Messages.ParseDecision | functions/src/star-store.ts:200-201 | The action is the longest `-`-free prefix of the token. The order id is undefined exactly when the token has no `-`. Otherwise the id is the `-`-free run right after the first `-`, followed by the end of the token or another `-`. |
| Messages.TokenRoundTrip | functions/src/star-store.ts:139-140 | Parsing `<action>-<orderId>` gives back the action and the first `-`-free segment of the order id. That segment is the whole id exactly when the id contains no `-`. |
| Messages.HeaderSwap | functions/src/star-store.ts:225-260 | Replacing the first "New Order Placed" header in a new-order summary gives the same summary under the new header, whatever the field values contain. |
| Orders.StatusAfter | functions/src/star-store.ts:242-257 | Confirm writes "done" and reject writes "rejected". Neither writes pending. |
| Orders.ConfirmPayment | functions/src/star-store.ts:68-168 | A failed verification stores nothing, posts nothing and returns failure with the order id. Otherwise, if the write happens, it replaces the entry under the order id wholesale with the client's fields and status pending, even over a decided record, and no other key changes. The result has four cases: write not acknowledged, notification not ok, a throw (unaddressable id, write or post), and success, which echoes the stored record. The post is issued only after an acknowledged write. Records stay stored under their own ids. |
| Orders.HandleCallback | functions/src/star-store.ts:181-273 | Every answer is status 200. The handler is unanswered exactly when an update that has a query and a message carries no usable token. No record is ever created. Unknown orders, unknown actions and a failed update leave the map unchanged and send nothing. Otherwise only that record's status is overwritten, without checking its current status, and one edit of the button's message is sent whose text is the summary under the decision's header. |
| Orders.StarStore.SendOrderNotification | functions/src/star-store.ts:56-169 | The handler's step-by-step early returns produce exactly `ConfirmPayment`'s result, new orders and outbox additions. |
| Orders.StarStore.ReceiveTelegramCallback | functions/src/star-store.ts:171-274 | The handler's step-by-step early returns produce exactly `HandleCallback`'s reply, new orders and outbox additions. |
| Orders.DecidePendingRecord | functions/src/star-store.ts:204-266 | A button press on a just-written pending record answers "OK", sets that record's status, and edits the message to the summary under the decision's header. |
| Orders.ConfirmThenDecide | functions/src/star-store.ts:109-266 | Take a confirmed order whose id has no `-`, whatever the outcome of its notification post. The requested post carries its tokens. Pressing one answers 200 and moves the record to that decision's status with every other field kept. The one edit request targets the pressed message, and its text is the requested post's text with only its header replaced. |
| Orders.DecisionIsNotFinal | functions/src/star-store.ts:242-267 | Pressing a button on an order that is already done or rejected overwrites its status again. Its other fields and every other key stay as they were. Exactly one edit request is issued: the pressed message, with the stored order's summary under the new decision's header. |
| Messages.ActionToken | functions/src/star-store.ts:139-140 | A button token is the action word, one `-`, then the order id unchanged. The action word holds no `-`. |
| Messages.Summary | functions/src/star-store.ts:90-105 | The summary opens with a line break followed by its header. The template at lines 225-240 is the same one. |
| Messages.SummaryShowsDetails | functions/src/star-store.ts:90-105 | Each of the seven detail lines (order id, payment id, name, user id, server, package, cost) occurs in the summary, under any header. |
| Text.ReplaceFirst | functions/src/star-store.ts:247 | `replace` with a string pattern leaves the text unchanged when the pattern occurs nowhere. Otherwise it replaces only the first occurrence, keeping the text before and after it. Line 260 is the same call. |
| Orders.PendingRecord | functions/src/star-store.ts:109-120 | The written record has status `pending`, keeps the gateway order id and the user's uid, and its summary details are the request's. |
| Orders.RecordDetails | functions/src/star-store.ts:219-229 | The callback's summary shows the order id taken from the token, not the record's `order_id` field. |
| Orders.DetailsIgnoreStatus | functions/src/star-store.ts:219-240 | The summary details do not depend on the record's status, so a decided record renders like its pending one. |

## Left out

- Signature verification (`validatePaymentVerification`, lines 18 and 68-71) is a foreign library call. Its verdict is a boolean input. HMAC and SHA-256 are not modelled.
- `createStarStoreOrder` (lines 26-54) only wraps the gateway's order-creation API.
- `telegramWebhookForwarder` (lines 276-288) only forwards HTTP requests. `functions/src/chat-um.ts` only mirrors accounts into the store.
- The secret, CORS and environment-variable checks (lines 20-23, 61-67, 175-179) are left out. They test parameter objects that are always truthy, so they never fire.
- The server timestamp (line 119) is not a field of the record.
- Firestore, Telegram and axios are not modelled. The store is the map. Write, post and update outcomes are inputs. The outcome of the edit post is ignored, as the source ignores it. Markdown rendering is not modelled.
- A failed `get` of the order (line 205) is not modelled.
- Order ids are plain keys. Firestore reads an id containing `/` as a nested path; the model does not.
- The emptiness check on `docSnap.data()` (lines 212-217) is the same as the existence check (206-210) in the map model.
- Asynchrony is not modelled. Each handler is one sequential step. The status update and the edit are not awaited, and the answer goes out before they settle (lines 243-273). The unknown-action branch answers twice (269 and 273); the model answers once.
- Two callbacks for the same order can race. The model runs handlers one at a time, so it covers sequential last-writer-wins only.
- Field values are strings. A `cost` sent as a number is modelled by its rendered text.
- Console logging (lines 60, 72, 124, 148, 162, 176-196, 207 and 214) is not modelled. It has no effect on the store, the chat or the replies.
- Status values are the three the handlers write. Values written outside this code are not modelled.
