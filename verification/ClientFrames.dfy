/** The frames a client asks with, as the server receives them, and the receipts it reads. */
module ClientFrames {
  import opened Wrappers
  import opened Text
  import opened Frames
  import opened Reports
  import C = Codec
  import B = Broker
  import D = BrokerDelivery

  function SubscribeText(game: string, id: string, receipt: string): string {
    "SUBSCRIBE\ndestination:/" + game + "\nid:" + id + "\nreceipt:" + receipt + "\n\n"
  }

  function UnsubscribeText(id: string, receipt: string): string {
    "UNSUBSCRIBE\nid:" + id + "\nreceipt:" + receipt + "\n\n"
  }

  function DisconnectText(receipt: string): string {
    "DISCONNECT\nreceipt:" + receipt + "\n\n"
  }

  /** The server reads the frame that was meant: a request of its kind, with these headers, no body and a receipt. */
  ghost predicate Means(text: string, kind: string, headers: Table) {
    && Parse(text) == Some(Received(kind, D.FrameTable(kind, headers, ""), true))
    && B.Objection(kind, D.FrameTable(kind, headers, ""), true) == None
    && (forall k :: k in headers ==> Get(D.FrameTable(kind, headers, ""), k) == headers[k])
  }

  lemma PrintedMeans(kind: string, printed: seq<(string, string)>, headers: Table)
    requires Printable(printed) && TableOf(printed, map[]) == headers
    requires D.Known(kind) && kind != "SEND" && D.Rest(headers) == D.Wanted(kind)
    requires "receipt" in headers && "FrameType" !in headers && "game_updates" !in headers
    ensures Means(Print(kind, printed, ""), kind, headers)
  {
    assert '\n' !in kind;
    PrintedIsReceived(kind, printed, "");
    D.ValidatorsExact(kind, headers, "");
  }

  lemma NumericIsLine(s: string)
    requires Numeric(s)
    ensures '\n' !in s
  {
    assert !IsDigit('\n');
  }

  lemma SubscribePrinted(game: string, id: string, receipt: string)
    ensures SubscribeText(game, id, receipt)
            == Print("SUBSCRIBE", [("destination", "/" + game), ("id", id), ("receipt", receipt)], "")
  {
    ThreeHeaders("destination", "/" + game, "id", id, "receipt", receipt, map[]);
  }

  lemma SubscribeMeans(game: string, id: string, receipt: string)
    requires '\n' !in game && Numeric(id) && Numeric(receipt)
    ensures Means(SubscribeText(game, id, receipt), "SUBSCRIBE",
                  map["destination" := "/" + game, "id" := id, "receipt" := receipt])
  {
    NumericIsLine(id);
    NumericIsLine(receipt);
    ThreeHeaders("destination", "/" + game, "id", id, "receipt", receipt, map[]);
    SubscribePrinted(game, id, receipt);
    var printed := [("destination", "/" + game), ("id", id), ("receipt", receipt)];
    var headers := map["destination" := "/" + game]["id" := id]["receipt" := receipt];
    hide Means;
    hide SubscribeText;
    hide Print;
    PrintedMeans("SUBSCRIBE", printed, headers);
    assert headers == map["destination" := "/" + game, "id" := id, "receipt" := receipt];
  }

  lemma UnsubscribeMeans(id: string, receipt: string)
    requires Numeric(id) && Numeric(receipt)
    ensures Means(UnsubscribeText(id, receipt), "UNSUBSCRIBE", map["id" := id, "receipt" := receipt])
  {
    NumericIsLine(id);
    NumericIsLine(receipt);
    TwoHeaders("id", id, "receipt", receipt, map[]);
    var printed := [("id", id), ("receipt", receipt)];
    var headers := map["id" := id]["receipt" := receipt];
    assert UnsubscribeText(id, receipt) == Print("UNSUBSCRIBE", printed, "");
    hide Means;
    PrintedMeans("UNSUBSCRIBE", printed, headers);
    assert headers == map["id" := id, "receipt" := receipt];
  }

  lemma DisconnectMeans(receipt: string)
    requires Numeric(receipt)
    ensures Means(DisconnectText(receipt), "DISCONNECT", map["receipt" := receipt])
  {
    NumericIsLine(receipt);
    OneHeader("receipt", receipt, map[]);
    assert DisconnectText(receipt) == Print("DISCONNECT", [("receipt", receipt)], "");
    hide Means;
    PrintedMeans("DISCONNECT", [("receipt", receipt)], map["receipt" := receipt]);
  }

  lemma NumericIsWhole(s: string)
    requires Numeric(s)
    ensures '\0' !in s
  {
    assert !IsDigit('\0');
  }

  lemma JoinIsWhole(game: string, i: nat, r: nat)
    ensures '\0' !in SubscribeText(game, Dec(i), Dec(r)) <==> '\0' !in game
  {
    NumericIsWhole(Dec(i));
    NumericIsWhole(Dec(r));
    hide Dec;
  }

  lemma ExitIsWhole(i: nat, r: nat)
    ensures '\0' !in UnsubscribeText(Dec(i), Dec(r))
  {
    NumericIsWhole(Dec(i));
    NumericIsWhole(Dec(r));
    hide Dec;
  }

  lemma LogoutIsWhole(r: nat)
    ensures '\0' !in DisconnectText(Dec(r))
  {
    NumericIsWhole(Dec(r));
    hide Dec;
  }

  /** A join's frame reaches process as it was sent if and only if its game has no U+0000. */
  lemma JoinArrivesExactly(game: string, i: nat, r: nat, past: seq<string>, chunks: seq<seq<C.Byte>>)
    requires C.Concat(chunks) == C.Encode(SubscribeText(game, Dec(i), Dec(r)))
    ensures C.FeedChunks(C.Decoded([], past), chunks).frames == past + [SubscribeText(game, Dec(i), Dec(r))]
            <==> '\0' !in game
  {
    JoinIsWhole(game, i, r);
    hide SubscribeText;
    C.ArrivesExactly(past, SubscribeText(game, Dec(i), Dec(r)), chunks);
  }

  /** The number a client reads out of a RECEIPT: from its first colon to the end of that line. */
  function ReceiptNumber(msg: string): Option<int> {
    match Find(msg, "\n")
    case None => None
    case Some(i) =>
      var t := msg[i..];
      var after := match Find(t, ":") case None => t case Some(j) => t[j + 1..];
      match Find(after, "\n") case None => Stoi(after) case Some(j) => Stoi(after[..j])
  }

  /** A receipt number printed, sent round and read back is the same number. */
  lemma ReceiptReadBack(r: nat)
    ensures ReceiptNumber(Render(Receipt(Dec(r)))) == Some(r)
  {
    hide Occurs;
    hide Dec;
    hide Stoi;
    hide Find;
    hide FindFrom;
    var id := Dec(r);
    var msg := Render(Receipt(id));
    NumericIsLine(id);
    assert msg == "RECEIPT" + ['\n'] + ("receipt-id:" + id + "\n\n");
    FindChar("RECEIPT", '\n', "receipt-id:" + id + "\n\n");
    var t := msg[7..];
    assert t == "\nreceipt-id" + [':'] + (id + "\n\n");
    FindChar("\nreceipt-id", ':', id + "\n\n");
    assert t[12..] == id + ['\n'] + "\n";
    FindChar(id, '\n', "\n");
    assert (id + ['\n'] + "\n")[..|id|] == id;
    StoiOfDec(r);
  }
}
