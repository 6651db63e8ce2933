/** The chat-facing text of the star store: the two action tokens carried by
    the inline buttons of a new-order notification, how the decision callback
    reads a token back, the order summary template and its headers. */
module Messages {
  import opened Wrappers
  import opened Text

  /** The operator's two decisions, offered as inline buttons. */
  datatype Action = Confirm | Reject

  /** The action word that starts a token. */
  function ActionName(a: Action): string
  {
    match a
    case Confirm => "confirm"
    case Reject => "reject"
  }

  /** The decision a token's first segment names, if any: the callback
      acts only on "confirm" and "reject". */
  function ActionOf(name: string): (a: Option<Action>)
    ensures a.Some? <==> name == "confirm" || name == "reject"
    ensures a.Some? ==> ActionName(a.value) == name
  {
    if name == "confirm" then Some(Confirm)
    else if name == "reject" then Some(Reject)
    else None
  }

  /** The `callback_data` of a button: `confirm-<orderId>` or `reject-<orderId>`. */
  function ActionToken(a: Action, orderId: string): (t: string)
    // the action word holds no "-", so the token's first "-" follows it directly
    ensures '-' !in ActionName(a) && |t| == |ActionName(a)| + 1 + |orderId|
    ensures t[..|ActionName(a)|] == ActionName(a)
    ensures t[|ActionName(a)|] == '-' && t[|ActionName(a)| + 1..] == orderId
  {
    ActionName(a) + "-" + orderId
  }

  /** An inline keyboard button: its text and the token it sends back. */
  datatype Button = Button(text: string, token: string)

  /** The one row of buttons posted with every new-order notification. */
  function DecisionButtons(orderId: string): (row: seq<Button>)
    ensures |row| == 2
    ensures row[0].token == ActionToken(Confirm, orderId)
    ensures row[1].token == ActionToken(Reject, orderId)
  {
    [Button("✅ Done", ActionToken(Confirm, orderId)),
     Button("❌ Reject", ActionToken(Reject, orderId))]
  }

  /** What the callback reads from a token: the segment before the first "-"
      (`split("-")[0]`) and the segment after it up to the next "-", which is
      undefined when the token has no "-" at all (`split("-")[1]`). */
  datatype Decision = Decision(action: string, orderId: Option<string>)

  function ParseDecision(data: string): (d: Decision)
    ensures '-' !in d.action && d.action <= data
    ensures d.orderId.None? <==> '-' !in data
    ensures d.orderId.None? ==> d.action == data
    ensures d.orderId.Some? ==>
      var id := d.orderId.value;
      && '-' !in id
      && d.action + "-" + id <= data
      && (|data| == |d.action| + 1 + |id| || data[|d.action| + 1 + |id|] == '-')
  {
    var parts := Split(data, '-');
    if |parts| == 1 then
      Decision(parts[0], None)
    else
      JoinFirstTwo(parts, '-');
      Decision(parts[0], Some(parts[1]))
  }

  /** The first two parts and the separator between them start the joined
      string, followed by the end or by another separator. */
  lemma JoinFirstTwo(parts: seq<string>, sep: char)
    requires |parts| >= 2
    ensures var head := parts[0] + [sep] + parts[1];
      && head <= Join(parts, sep)
      && (|Join(parts, sep)| == |head| || Join(parts, sep)[|head|] == sep)
  {
    if |parts| > 2 {
      assert Join(parts[1..], sep) == parts[1] + [sep] + Join(parts[2..], sep);
    }
  }

  /** Tokens round-trip through the parse when the order id holds no "-";
      in general the parse keeps only the order id's first "-"-free segment,
      which equals the id exactly when the id holds no "-". */
  lemma TokenRoundTrip(a: Action, orderId: string)
    ensures ParseDecision(ActionToken(a, orderId)) == Decision(ActionName(a), Some(Split(orderId, '-')[0]))
    ensures Split(orderId, '-')[0] == orderId <==> '-' !in orderId
  {
    SplitAfterSeparator(ActionName(a), '-', orderId);
    assert ActionToken(a, orderId) == ActionName(a) + ['-'] + orderId;
    if '-' !in orderId {
      SplitWithoutSeparator(orderId, '-');
    }
  }

  // The summary template

  /** The values a summary shows. */
  datatype Details = Details(
    orderId: string, paymentId: string, name: string, userId: string,
    server: string, packageName: string, cost: string)

  const NewOrderHeader: string := "*New Order Placed!* \U{1F525}"
  const DeliveredHeader: string := "*Order Delivered!* \U{1F525}"
  const RejectedHeader: string := "*Order Rejected*"

  /** The header an edited message carries after a decision. */
  function DecidedHeader(a: Action): string
  {
    match a
    case Confirm => DeliveredHeader
    case Reject => RejectedHeader
  }

  /** The seven detail lines of a summary, in order. */
  function DetailLines(d: Details): seq<string>
  {
    [ "\t\t- Order ID: `" + d.orderId + "`",
      "\t\t- Payment ID: `" + d.paymentId + "`",
      "\t\t- Name: " + d.name,
      "\t\t- User ID: `" + d.userId + "`",
      "\t\t- Server: `" + d.server + "`",
      "\t\t- Package: " + d.packageName,
      "\t\t- Cost: " + d.cost ]
  }

  /** The pieces of a summary after its header; detail line `k` is piece `2 * k + 1`. */
  function BodyPieces(d: Details): (pieces: seq<string>)
    ensures |pieces| == 15
    ensures forall k :: 0 <= k < 7 ==> pieces[2 * k + 1] == DetailLines(d)[k]
  {
    var l := DetailLines(d);
    [ "\n\n*Order Details:*\n", l[0], "\n", l[1],
      "\n\n*User Details:*\n", l[2], "\n", l[3], "\n", l[4],
      "\n\n*Package Details:*\n", l[5], "\n", l[6], "\n\t" ]
  }

  /** Everything of a summary after its header. */
  function SummaryBody(d: Details): string
  {
    Concat(BodyPieces(d))
  }

  /** The Markdown order summary: a line break, then the header on the first
      line, then the details. */
  function Summary(header: string, d: Details): (s: string)
    ensures |s| > |header| && s[0] == '\n' && s[1..1 + |header|] == header
  {
    "\n" + header + SummaryBody(d)
  }

  /** Every detail line, and so every value of the order, appears in a
      summary under any header. */
  lemma SummaryShowsDetails(header: string, d: Details)
    ensures forall k :: 0 <= k < |DetailLines(d)| ==> Occurs(Summary(header, d), DetailLines(d)[k])
  {
    forall k | 0 <= k < |DetailLines(d)| ensures Occurs(Summary(header, d), DetailLines(d)[k]) {
      PieceOccurs(BodyPieces(d), 2 * k + 1);
      var j: nat :| OccursAt(SummaryBody(d), DetailLines(d)[k], j);
      OccursAfterPrefix("\n" + header, SummaryBody(d), DetailLines(d)[k], j);
    }
  }

  /** Replacing the first "New Order Placed" header of a new-order summary
      swaps exactly its header, whatever the field values hold: the
      header's first occurrence is the one right after the opening line
      break, because the text starts with that line break. */
  lemma HeaderSwap(d: Details, header: string)
    ensures ReplaceFirst(Summary(NewOrderHeader, d), NewOrderHeader, header) == Summary(header, d)
  {
    var s := Summary(NewOrderHeader, d);
    var n := |NewOrderHeader|;
    assert s == "\n" + NewOrderHeader + SummaryBody(d);
    assert s[1..1 + n] == NewOrderHeader;
    assert OccursAt(s, NewOrderHeader, 1);
    assert !OccursAt(s, NewOrderHeader, 0) by {
      assert s[0] == '\n' && NewOrderHeader[0] == '*';
    }
    var i := IndexOf(s, NewOrderHeader);
    assert i == Some(1);
    assert s[..1] == "\n" && s[1 + n..] == SummaryBody(d);
  }
}
