/** The star store's order lifecycle: the confirm-payment handler writes a
    pending order record and notifies the operator; the decision callback
    moves the record to done or rejected and edits the notification.

    The orders collection of the `tenants/star-store` document is a map from
    gateway order id to record. Every external effect is an input: the
    signature verifier's verdict, the outcome of the record write, of the
    notification post and of the status update. Every post and edit request
    the handlers issue to the chat is recorded, in order, in a ghost outbox,
    whatever its outcome. */
module Orders {
  import opened Wrappers
  import opened Text
  import opened Messages

  // Records

  datatype Status = Pending | Done | Rejected

  /** The string stored in a record's `status` field. */
  function StatusName(s: Status): string
  {
    match s
    case Pending => "pending"
    case Done => "done"
    case Rejected => "rejected"
  }

  /** The status a decision writes. */
  function StatusAfter(a: Action): (s: Status)
    ensures s != Pending
    ensures StatusName(s) == (if a == Confirm then "done" else "rejected")
  {
    match a
    case Confirm => Done
    case Reject => Rejected
  }

  /** An order record; the server timestamp is not part of the model. */
  datatype Order = Order(
    orderId: string, paymentId: string, name: string, userId: string,
    server: string, packageName: string, cost: string, status: Status, uuid: string)

  /** The client's confirm-payment request (the signature itself is consumed
      by the verifier, whose verdict is an input of the handler). */
  datatype PaymentRequest = PaymentRequest(
    orderId: string, paymentId: string, name: string, userId: string,
    server: string, packageName: string, cost: string, uuid: string)

  /** The record written on confirmation: the client's fields, status pending. */
  function PendingRecord(req: PaymentRequest): (o: Order)
    ensures o.status == Pending && StatusName(o.status) == "pending"
    ensures o.orderId == req.orderId && o.uuid == req.uuid
    ensures RecordDetails(req.orderId, o) == RequestDetails(req)
  {
    Order(req.orderId, req.paymentId, req.name, req.userId,
          req.server, req.packageName, req.cost, Pending, req.uuid)
  }

  /** What the new-order summary shows, taken from the request. */
  function RequestDetails(req: PaymentRequest): Details
  {
    Details(req.orderId, req.paymentId, req.name, req.userId, req.server, req.packageName, req.cost)
  }

  /** What the callback's summary shows: the order id parsed from the token
      and every other value from the stored record. */
  function RecordDetails(orderId: string, o: Order): (d: Details)
    // the id shown is the token's, not the record's order_id field
    ensures d.orderId == orderId
  {
    Details(orderId, o.paymentId, o.name, o.userId, o.server, o.packageName, o.cost)
  }

  /** The rebuilt summary does not depend on the record's status, so a
      decided order is shown with the same details as a pending one. */
  lemma DetailsIgnoreStatus(orderId: string, o: Order, st: Status)
    ensures RecordDetails(orderId, o.(status := st)) == RecordDetails(orderId, o)
  {
  }

  /** The store refuses an empty document id (the document-reference call
      throws), so only non-empty ids address a record. */
  predicate Addressable(id: string)
  {
    id != ""
  }

  /** Every record sits under its own order id. */
  ghost predicate KeysMatch(orders: map<string, Order>)
  {
    forall k :: k in orders ==> orders[k].orderId == k
  }

  /** A request issued to the operator's chat; it may not have reached it. */
  datatype Outbound =
    | Post(text: string, buttons: seq<Button>)
    | Edit(messageId: int, text: string)

  // Confirm payment

  /** How the awaited record write ended: resolved with a truthy result,
      resolved with a falsy one (the record is written either way), or
      rejected (nothing written). */
  datatype WriteOutcome = Acknowledged | Unacknowledged | WriteThrew

  /** How the notification post ended: its response says ok, says not ok,
      or the request threw. */
  datatype NotifyOutcome = NotifyOk | NotifyNotOk | NotifyThrew

  const VerificationFailedMessage: string :=
    "Payment verification failed! Please copy your order ID and contact the administrators immediately!"
  const NotStoredMessage: string :=
    "Payment verified, but not added to the database. Please copy your order ID and contact the administrators immediately!"
  const NotNotifiedMessage: string :=
    "Payment verified, but unable to notify the administrators. Please copy your order ID and contact them immediately!"
  const ThrownMessage: string :=
    "Payment verified, but unable to notify the administrators"
  const VerifiedMessage: string :=
    "Payment verified!! Copy the order ID"

  /** The fields a result carries beside `success` and `message`: the order
      id alone, or every field of the stored record. */
  datatype Echo = OrderIdOnly(orderId: string) | Record(order: Order)

  datatype ConfirmResult = ConfirmResult(success: bool, message: string, echo: Echo)

  /** A handler's answer, the orders afterwards and what it sent to the chat. */
  datatype ConfirmEffect = ConfirmEffect(result: ConfirmResult, orders: map<string, Order>, sent: seq<Outbound>)

  /** The notification of a new order: the summary under the "New Order
      Placed" header, with the confirm and reject buttons. */
  function NewOrderPost(req: PaymentRequest): Outbound
  {
    Post(Summary(NewOrderHeader, RequestDetails(req)), DecisionButtons(req.orderId))
  }

  /** The record write happens and succeeds. */
  predicate Persisted(req: PaymentRequest, verified: bool, write: WriteOutcome)
  {
    verified && Addressable(req.orderId) && write != WriteThrew
  }

  /** The handler reaches the notification post. */
  predicate Notifies(req: PaymentRequest, verified: bool, write: WriteOutcome)
  {
    Persisted(req, verified, write) && write == Acknowledged
  }

  /** The confirm-payment handler as one step over the orders. */
  function ConfirmPayment(orders: map<string, Order>, req: PaymentRequest, verified: bool,
                          write: WriteOutcome, notify: NotifyOutcome): (out: ConfirmEffect)
    // no record and no notification without a verified signature
    ensures !verified ==> out.orders == orders && out.sent == []
    ensures !verified ==> out.result == ConfirmResult(false, VerificationFailedMessage, OrderIdOnly(req.orderId))
    // the write adds or wholesale replaces the entry under the order id, and only it
    ensures out.orders.Keys == if Persisted(req, verified, write) then orders.Keys + {req.orderId} else orders.Keys
    ensures forall k :: k in orders && k != req.orderId ==> out.orders[k] == orders[k]
    ensures !Persisted(req, verified, write) ==> out.orders == orders
    ensures Persisted(req, verified, write) ==>
      var o := out.orders[req.orderId];
      && o.status == Pending && o.orderId == req.orderId && o.uuid == req.uuid
      && RecordDetails(req.orderId, o) == RequestDetails(req)
    ensures KeysMatch(orders) ==> KeysMatch(out.orders)
    // result classification once the signature is verified
    ensures verified && !Persisted(req, verified, write) ==>
      out.result == ConfirmResult(false, ThrownMessage, OrderIdOnly(req.orderId))
    ensures Persisted(req, verified, write) && write == Unacknowledged ==>
      out.result == ConfirmResult(true, NotStoredMessage, OrderIdOnly(req.orderId))
    ensures Notifies(req, verified, write) && notify == NotifyThrew ==>
      out.result == ConfirmResult(false, ThrownMessage, OrderIdOnly(req.orderId))
    ensures Notifies(req, verified, write) && notify == NotifyNotOk ==>
      out.result == ConfirmResult(true, NotNotifiedMessage, OrderIdOnly(req.orderId))
    ensures Notifies(req, verified, write) && notify == NotifyOk ==>
      out.result == ConfirmResult(true, VerifiedMessage, Record(out.orders[req.orderId]))
    ensures out.result.success <==>
      Persisted(req, verified, write) && !(write == Acknowledged && notify == NotifyThrew)
    // the notification is posted only after the record is written and acknowledged
    ensures out.sent == if Notifies(req, verified, write) then [NewOrderPost(req)] else []
  {
    if !verified then
      ConfirmEffect(ConfirmResult(false, VerificationFailedMessage, OrderIdOnly(req.orderId)), orders, [])
    else
      var message := Summary(NewOrderHeader, RequestDetails(req));
      if !Addressable(req.orderId) || write == WriteThrew then
        ConfirmEffect(ConfirmResult(false, ThrownMessage, OrderIdOnly(req.orderId)), orders, [])
      else
        var data := PendingRecord(req);
        var stored := orders[req.orderId := data];
        if write == Unacknowledged then
          ConfirmEffect(ConfirmResult(true, NotStoredMessage, OrderIdOnly(req.orderId)), stored, [])
        else
          var sent := [Post(message, DecisionButtons(req.orderId))];
          match notify
          case NotifyThrew =>
            ConfirmEffect(ConfirmResult(false, ThrownMessage, OrderIdOnly(req.orderId)), stored, sent)
          case NotifyNotOk =>
            ConfirmEffect(ConfirmResult(true, NotNotifiedMessage, OrderIdOnly(req.orderId)), stored, sent)
          case NotifyOk =>
            ConfirmEffect(ConfirmResult(true, VerifiedMessage, Record(data)), stored, sent)
  }

  // Decision callback

  datatype CallbackMessage = CallbackMessage(messageId: int)

  /** The `callback_query` of a chat update: the pressed button's token and
      the message that carried the button. */
  datatype CallbackQuery = CallbackQuery(data: Option<string>, message: Option<CallbackMessage>)

  datatype ChatUpdate = ChatUpdate(callbackQuery: Option<CallbackQuery>)

  /** The HTTP answer, or none when the handler throws before answering. */
  datatype Reply = Reply(status: nat, text: string) | Unanswered

  datatype CallbackEffect = CallbackEffect(reply: Reply, orders: map<string, Order>, sent: seq<Outbound>)

  /** The query of a body that has a callback query with a message. */
  function ReachedQuery(body: Option<ChatUpdate>): Option<CallbackQuery>
  {
    if body.Some? && body.value.callbackQuery.Some? && body.value.callbackQuery.value.message.Some?
    then body.value.callbackQuery
    else None
  }

  /** The token of a reached query cannot address a record: there is no
      token, it has no "-", or its order id is empty. */
  predicate TokenUnusable(q: CallbackQuery)
  {
    q.data.None? || ParseDecision(q.data.value).orderId.None? ||
    !Addressable(ParseDecision(q.data.value).orderId.value)
  }

  /** A well-formed decision: a known action on an addressable order id,
      answered in the message that carried the buttons. */
  datatype Verdict = Verdict(action: Action, orderId: string, messageId: int)

  function VerdictOf(body: Option<ChatUpdate>): Option<Verdict>
  {
    match ReachedQuery(body)
    case None => None
    case Some(q) =>
      if TokenUnusable(q) then None
      else
        var d := ParseDecision(q.data.value);
        match ActionOf(d.action)
        case None => None
        case Some(a) => Some(Verdict(a, d.orderId.value, q.message.value.messageId))
  }

  /** The decision-callback handler as one step over the orders. */
  function HandleCallback(orders: map<string, Order>, body: Option<ChatUpdate>, updateOk: bool): (out: CallbackEffect)
    // every answer is a 200; only a token that cannot address a record throws
    ensures out.reply.Reply? ==> out.reply.status == 200
    ensures out.reply.Unanswered? <==> ReachedQuery(body).Some? && TokenUnusable(ReachedQuery(body).value)
    // no record is ever created, and only a decision on a stored order changes one
    ensures out.orders.Keys == orders.Keys
    ensures KeysMatch(orders) ==> KeysMatch(out.orders)
    ensures VerdictOf(body).Some? ==> out.reply == Reply(200, "OK")
    ensures VerdictOf(body).None? || VerdictOf(body).value.orderId !in orders || !updateOk ==>
      out.orders == orders && out.sent == []
    ensures VerdictOf(body).Some? && VerdictOf(body).value.orderId in orders && updateOk ==>
      var v := VerdictOf(body).value;
      var o := orders[v.orderId];
      // the status is overwritten whatever it was, every other field and key is kept
      && out.orders == orders[v.orderId := o.(status := StatusAfter(v.action))]
      // one edit, of the message that carried the buttons, swapping only the header
      && out.sent == [Edit(v.messageId, Summary(DecidedHeader(v.action), RecordDetails(v.orderId, o)))]
  {
    if body.None? then
      CallbackEffect(Reply(200, "Missing request body"), orders, [])
    else if body.value.callbackQuery.None? then
      CallbackEffect(Reply(200, "Not a callback query"), orders, [])
    else
      var q := body.value.callbackQuery.value;
      if q.message.None? then
        CallbackEffect(Reply(200, "Missing message id"), orders, [])
      else if q.data.None? then
        // `split` on an undefined token throws
        CallbackEffect(Unanswered, orders, [])
      else
        var d := ParseDecision(q.data.value);
        if d.orderId.None? || !Addressable(d.orderId.value) then
          // the document reference of an undefined or empty id throws
          CallbackEffect(Unanswered, orders, [])
        else
          var id := d.orderId.value;
          if id !in orders then
            CallbackEffect(Reply(200, "OK"), orders, [])
          else
            var message := Summary(NewOrderHeader, RecordDetails(id, orders[id]));
            match ActionOf(d.action)
            case None =>
              CallbackEffect(Reply(200, "OK"), orders, [])
            case Some(a) =>
              if !updateOk then
                CallbackEffect(Reply(200, "OK"), orders, [])
              else
                HeaderSwap(RecordDetails(id, orders[id]), DecidedHeader(a));
                var edit := Edit(q.message.value.messageId, ReplaceFirst(message, NewOrderHeader, DecidedHeader(a)));
                CallbackEffect(Reply(200, "OK"), orders[id := orders[id].(status := StatusAfter(a))], [edit])
  }

  // The store and its two handlers

  /** The orders collection with the two handlers. Each method follows its
      handler's early returns step by step; ConfirmPayment and HandleCallback
      above are their specification and carry the properties. */
  class StarStore {
    /** The orders collection, keyed by gateway order id. */
    var orders: map<string, Order>
    /** Every post and edit request issued to the chat, oldest first,
        whether or not the chat accepted it. */
    ghost var outbox: seq<Outbound>

    constructor (initial: map<string, Order>)
      ensures orders == initial && outbox == []
    {
      orders := initial;
      outbox := [];
    }

    /** `sendOrderNotification`: verify, write the pending record, notify. */
    method SendOrderNotification(req: PaymentRequest, verified: bool, write: WriteOutcome, notify: NotifyOutcome)
      returns (result: ConfirmResult)
      modifies this
      ensures var effect := ConfirmPayment(old(orders), req, verified, write, notify);
        result == effect.result && orders == effect.orders && outbox == old(outbox) + effect.sent
    {
      if !verified {
        return ConfirmResult(false, VerificationFailedMessage, OrderIdOnly(req.orderId));
      }
      var message := Summary(NewOrderHeader, RequestDetails(req));
      if !Addressable(req.orderId) || write == WriteThrew {
        return ConfirmResult(false, ThrownMessage, OrderIdOnly(req.orderId));
      }
      var data := PendingRecord(req);
      orders := orders[req.orderId := data];
      if write == Unacknowledged {
        return ConfirmResult(true, NotStoredMessage, OrderIdOnly(req.orderId));
      }
      outbox := outbox + [Post(message, DecisionButtons(req.orderId))];
      if notify == NotifyThrew {
        return ConfirmResult(false, ThrownMessage, OrderIdOnly(req.orderId));
      }
      if notify == NotifyNotOk {
        return ConfirmResult(true, NotNotifiedMessage, OrderIdOnly(req.orderId));
      }
      return ConfirmResult(true, VerifiedMessage, Record(data));
    }

    /** `recieveTelegramCallback`: parse the token, look the order up, write
        the new status and, once that write succeeds, edit the message. */
    method ReceiveTelegramCallback(body: Option<ChatUpdate>, updateOk: bool) returns (reply: Reply)
      modifies this
      ensures var effect := HandleCallback(old(orders), body, updateOk);
        reply == effect.reply && orders == effect.orders && outbox == old(outbox) + effect.sent
    {
      if body.None? {
        return Reply(200, "Missing request body");
      }
      if body.value.callbackQuery.None? {
        return Reply(200, "Not a callback query");
      }
      var q := body.value.callbackQuery.value;
      if q.message.None? {
        return Reply(200, "Missing message id");
      }
      if q.data.None? {
        return Unanswered;
      }
      var messageId := q.message.value.messageId;
      var d := ParseDecision(q.data.value);
      if d.orderId.None? || !Addressable(d.orderId.value) {
        return Unanswered;
      }
      var id := d.orderId.value;
      if id !in orders {
        return Reply(200, "OK");
      }
      var record := orders[id];
      var message := Summary(NewOrderHeader, RecordDetails(id, record));
      var action := ActionOf(d.action);
      if action.Some? && updateOk {
        var a := action.value;
        orders := orders[id := record.(status := StatusAfter(a))];
        outbox := outbox + [Edit(messageId, ReplaceFirst(message, NewOrderHeader, DecidedHeader(a)))];
      }
      return Reply(200, "OK");
    }
  }

  // The lifecycle across the two handlers

  /** The tokens of every button of the posts among `sent`. */
  function TokensOf(sent: seq<Outbound>): set<string>
  {
    set i, j | 0 <= i < |sent| && sent[i].Post? && 0 <= j < |sent[i].buttons| :: sent[i].buttons[j].token
  }

  /** The callback body a press of one of the posted buttons produces. */
  function ButtonPress(token: string, messageId: int): Option<ChatUpdate>
  {
    Some(ChatUpdate(Some(CallbackQuery(Some(token), Some(CallbackMessage(messageId))))))
  }

  /** Pressing a button whose token names a known action on an order id
      without "-" yields exactly that decision. */
  lemma ButtonPressDecides(a: Action, orderId: string, messageId: int)
    requires Addressable(orderId) && '-' !in orderId
    ensures VerdictOf(ButtonPress(ActionToken(a, orderId), messageId)) == Some(Verdict(a, orderId, messageId))
  {
    TokenRoundTrip(a, orderId);
  }

  /** A verified, acknowledged confirmation stores the pending record and
      posts the new-order notification. */
  lemma ConfirmStoresAndPosts(orders: map<string, Order>, req: PaymentRequest, notify: NotifyOutcome)
    requires Addressable(req.orderId)
    ensures var confirmed := ConfirmPayment(orders, req, true, Acknowledged, notify);
      confirmed.orders == orders[req.orderId := PendingRecord(req)] && confirmed.sent == [NewOrderPost(req)]
  {
  }

  /** A decision on a stored order, with the status write succeeding. */
  lemma DecideStoredOrder(orders: map<string, Order>, body: Option<ChatUpdate>, v: Verdict)
    requires VerdictOf(body) == Some(v) && v.orderId in orders
    ensures HandleCallback(orders, body, true) == CallbackEffect(
      Reply(200, "OK"),
      orders[v.orderId := orders[v.orderId].(status := StatusAfter(v.action))],
      [Edit(v.messageId, Summary(DecidedHeader(v.action), RecordDetails(v.orderId, orders[v.orderId])))])
  {
  }

  /** A button press on the pending record just written for `req`. */
  lemma DecidePendingRecord(orders: map<string, Order>, req: PaymentRequest, a: Action, messageId: int)
    requires Addressable(req.orderId) && '-' !in req.orderId
    ensures var id := req.orderId;
      HandleCallback(orders[id := PendingRecord(req)], ButtonPress(ActionToken(a, id), messageId), true)
      == CallbackEffect(
        Reply(200, "OK"),
        orders[id := PendingRecord(req).(status := StatusAfter(a))],
        [Edit(messageId, Summary(DecidedHeader(a), RequestDetails(req)))])
  {
    var id := req.orderId;
    var record := PendingRecord(req);
    var stored := orders[id := record];
    var press := ButtonPress(ActionToken(a, id), messageId);
    assert VerdictOf(press) == Some(Verdict(a, id, messageId)) by {
      ButtonPressDecides(a, id, messageId);
    }
    assert stored[id] == record;
    var decided := record.(status := StatusAfter(a));
    assert stored[id := decided] == orders[id := decided];
    assert RecordDetails(id, record) == RequestDetails(req);
    DecideStoredOrder(stored, press, Verdict(a, id, messageId));
  }

  /** A confirmed order whose id holds no "-", decided by pressing one of the
      buttons of the notification post requested for it: the callback is
      answered, the record moves to that decision's status with every other
      field kept, and the one edit request targets the message that carried
      the buttons, its text being the requested post's text with only the
      "New Order Placed" header replaced. */
  lemma ConfirmThenDecide(orders: map<string, Order>, req: PaymentRequest, notify: NotifyOutcome,
                          a: Action, messageId: int)
    requires Addressable(req.orderId) && '-' !in req.orderId
    ensures var confirmed := ConfirmPayment(orders, req, true, Acknowledged, notify);
      var token := ActionToken(a, req.orderId);
      var decided := HandleCallback(confirmed.orders, ButtonPress(token, messageId), true);
      && confirmed.sent != [] && confirmed.sent[0].Post?
      && token in TokensOf(confirmed.sent)
      && decided.reply == Reply(200, "OK")
      && decided.orders == orders[req.orderId := PendingRecord(req).(status := StatusAfter(a))]
      && decided.sent == [Edit(messageId, ReplaceFirst(confirmed.sent[0].text, NewOrderHeader, DecidedHeader(a)))]
  {
    ConfirmStoresAndPosts(orders, req, notify);
    var buttons := DecisionButtons(req.orderId);
    assert ActionToken(a, req.orderId) == buttons[if a == Confirm then 0 else 1].token;
    DecidePendingRecord(orders, req, a, messageId);
    HeaderSwap(RequestDetails(req), DecidedHeader(a));
  }

  /** Nothing makes a decision final: pressing either button of an order that
      was already decided overwrites its status again, keeps its other fields,
      and requests an edit of the pressed message under the new header. */
  lemma DecisionIsNotFinal(orders: map<string, Order>, a: Action, orderId: string, messageId: int)
    requires Addressable(orderId) && '-' !in orderId
    requires orderId in orders && orders[orderId].status != Pending
    ensures var decided := HandleCallback(orders, ButtonPress(ActionToken(a, orderId), messageId), true);
      && decided.orders == orders[orderId := orders[orderId].(status := StatusAfter(a))]
      && decided.sent == [Edit(messageId, Summary(DecidedHeader(a), RecordDetails(orderId, orders[orderId])))]
  {
    ButtonPressDecides(a, orderId, messageId);
  }
}
