/** STOMP frames as the server reads and writes them. */
module Frames {
  import opened Wrappers
  import opened Text

  type Table = map<string, string>

  function Get(t: Table, k: string): string {
    if k in t then t[k] else ""
  }

  /** A frame the server sends. */
  datatype Frame =
    | Connected
    | Receipt(id: string)
    | Error(kind: string, original: string, description: string, receipt: Option<string>)
    | Message(subscription: string, id: string, destination: string, body: string)

  const SUBSCRIPTION := "subscription:"
  const MESSAGE_ID := "message-id:"
  const DESTINATION := "destination:"

  function Render(f: Frame): string {
    match f
    case Connected => "CONNECTED\nversion:1.2\n\n"
    case Receipt(id) => "RECEIPT\nreceipt-id:" + id + "\n\n"
    case Error(kind, original, description, receipt) =>
      "ERROR\n" + (if receipt.Some? then "receipt-id:" + receipt.value + "\n" else "")
      + "message:" + kind + "\n\nThe message:\n-----\n" + original + "\n-----" + description
    case Message(subscription, id, destination, body) =>
      "MESSAGE" + "\n" + SUBSCRIPTION + subscription + "\n" + MESSAGE_ID + id + "\n" + DESTINATION + destination
      + "\n" + "\n" + body
  }

  /** The header lines up to the blank line, and the text from that line on; None where the code throws. */
  function ReadHeaders(cut: string, t: Table): (r: Option<(Table, string)>)
    ensures r.Some? ==> r.value.1 != "" && r.value.1[0] == '\n'
    decreases |cut|
  {
    if cut == "" then None
    else if cut[0] == '\n' then Some((t, cut))
    else
      match (Find(cut, ":"), Find(cut, "\n"))
      case (Some(colon), Some(line)) =>
        if colon < line then ReadHeaders(cut[line + 1..], t[cut[..colon] := cut[colon + 1..line]]) else None
      case _ => None
  }

  /** A received frame: its type and its table, which also holds the type and the body. */
  datatype Received = Received(kind: string, table: Table, receipt: bool)

  function Parse(message: string): Option<Received> {
    match Find(message, "\n")
    case None => None
    case Some(line) =>
      match ReadHeaders(message[line + 1..], map[])
      case None => None
      case Some((headers, rest)) =>
        var t := if rest == "\n" then headers else headers["game_updates" := rest[1..]];
        Some(Received(message[..line], t["FrameType" := message[..line]], "receipt" in headers))
  }

  /** A header block as a client prints it. */
  function PrintHeaders(headers: seq<(string, string)>): string {
    if headers == [] then ""
    else headers[0].0 + ":" + headers[0].1 + "\n" + PrintHeaders(headers[1..])
  }

  function TableOf(headers: seq<(string, string)>, t: Table): Table
    decreases headers
  {
    if headers == [] then t else TableOf(headers[1..], t[headers[0].0 := headers[0].1])
  }

  predicate Printable(headers: seq<(string, string)>) {
    forall h :: h in headers ==> ':' !in h.0 && '\n' !in h.0 && '\n' !in h.1
  }

  lemma HeaderLine(k: string, v: string, more: string, t: Table)
    requires ':' !in k && '\n' !in k && '\n' !in v
    ensures ReadHeaders(k + ":" + v + "\n" + more, t) == ReadHeaders(more, t[k := v])
  {
    hide Find;
    var cut := k + ":" + v + "\n" + more;
    assert cut == k + [':'] + (v + "\n" + more);
    FindChar(k, ':', v + "\n" + more);
    assert cut == (k + ":" + v) + ['\n'] + more;
    FindChar(k + ":" + v, '\n', more);
    assert cut[0] == (if k == "" then ':' else k[0]);
    assert cut[0] != '\n';
    assert cut[..|k|] == k && cut[|k| + 1..|k| + 1 + |v|] == v && cut[|k| + 1 + |v| + 1..] == more;
  }

  /** Reading undoes printing and leaves the body alone; a repeated key takes its last value. */
  lemma {:induction false} HeadersRoundTrip(headers: seq<(string, string)>, t: Table, body: string)
    requires Printable(headers)
    ensures ReadHeaders(PrintHeaders(headers) + "\n" + body, t) == Some((TableOf(headers, t), "\n" + body))
    decreases headers
  {
    if headers == [] {
      assert PrintHeaders(headers) + "\n" + body == "\n" + body;
    } else {
      var (k, v) := headers[0];
      assert headers[0] in headers;
      var more := PrintHeaders(headers[1..]) + "\n" + body;
      assert PrintHeaders(headers) + "\n" + body == k + ":" + v + "\n" + more;
      HeaderLine(k, v, more, t);
      HeadersRoundTrip(headers[1..], t[k := v], body);
    }
  }

  /** What reading the header lines has taken from a text. */
  predicate Block(cut: string, headers: seq<(string, string)>, body: string) {
    Printable(headers) && cut == PrintHeaders(headers) + "\n" + body
  }

  lemma LineInFront(k: string, v: string, more: string, headers: seq<(string, string)>, body: string)
    requires ':' !in k && '\n' !in k && '\n' !in v && Block(more, headers, body)
    ensures Block(k + ":" + v + "\n" + more, [(k, v)] + headers, body)
  {
    assert ([(k, v)] + headers)[1..] == headers;
  }

  lemma FirstHeader(cut: string) returns (k: string, v: string, more: string)
    requires Find(cut, ":").Some? && Find(cut, "\n").Some? && Find(cut, ":").value < Find(cut, "\n").value
    ensures var colon, line := Find(cut, ":").value, Find(cut, "\n").value;
            k == cut[..colon] && v == cut[colon + 1..line] && more == cut[line + 1..]
    ensures cut == k + ":" + v + "\n" + more && ':' !in k && '\n' !in k && '\n' !in v
  {
    hide FindFrom;
    var colon, line := Find(cut, ":").value, Find(cut, "\n").value;
    k, v, more := cut[..colon], cut[colon + 1..line], cut[line + 1..];
    assert cut[colon..colon + 1] == ":" && cut[line..line + 1] == "\n";
    assert cut == cut[..colon] + cut[colon..colon + 1] + cut[colon + 1..line] + cut[line..line + 1] + cut[line + 1..];
    forall i | 0 <= i < colon ensures cut[i] != ':' {
      assert !Occurs(cut, ":", i);
      assert cut[i..i + 1] == [cut[i]];
    }
    forall i | 0 <= i < line ensures cut[i] != '\n' {
      assert !Occurs(cut, "\n", i);
      assert cut[i..i + 1] == [cut[i]];
    }
  }

  /** Whatever is read is a block of header lines, each with a colon, and a blank line. */
  lemma {:induction false} ReadIsBlock(cut: string, t: Table) returns (headers: seq<(string, string)>, body: string)
    requires ReadHeaders(cut, t).Some?
    ensures Block(cut, headers, body) && ReadHeaders(cut, t) == Some((TableOf(headers, t), "\n" + body))
    decreases |cut|
  {
    hide Find;
    if cut[0] == '\n' {
      headers, body := [], cut[1..];
      assert cut == [cut[0]] + body;
      assert PrintHeaders([]) + "\n" + body == "\n" + body == cut;
    } else {
      var k, v, more := FirstHeader(cut);
      var rest;
      rest, body := ReadIsBlock(more, t[k := v]);
      headers := [(k, v)] + rest;
      LineInFront(k, v, more, rest, body);
      assert headers[1..] == rest;
    }
  }

  /** A header block has a reading exactly if it is one: lines with a colon each, and a blank line. */
  lemma HeadersExactly(cut: string, t: Table)
    ensures ReadHeaders(cut, t).Some? <==> exists headers, body :: Block(cut, headers, body)
  {
    hide PrintHeaders;
    hide Find;
    if ReadHeaders(cut, t).Some? {
      var headers, body := ReadIsBlock(cut, t);
    } else if headers, body :| Block(cut, headers, body) {
      HeadersRoundTrip(headers, t, body);
    }
  }

  /** A text is readable exactly if it is a first line and a header block. */
  lemma ParseExactly(message: string)
    ensures Parse(message).Some? <==>
              exists kind, headers, body :: '\n' !in kind && Printable(headers) && message == Print(kind, headers, body)
  {
    hide FindFrom;
    hide PrintHeaders;
    hide ReadHeaders;
    if Parse(message).Some? {
      var n := Find(message, "\n").value;
      var kind, cut := message[..n], message[n + 1..];
      var headers, body := ReadIsBlock(cut, map[]);
      forall i | 0 <= i < n ensures message[i] != '\n' {
        assert !Occurs(message, "\n", i);
        assert message[i..i + 1] == [message[i]];
      }
      assert message[n..n + 1] == "\n";
      assert message == kind + "\n" + cut;
      OneText(kind, PrintHeaders(headers), body);
      assert message == Print(kind, headers, body);
    } else if kind, headers, body :|
      '\n' !in kind && Printable(headers) && message == Print(kind, headers, body) {
      PrintedIsReceived(kind, headers, body);
    }
  }

  lemma OneText(kind: string, headers: string, body: string)
    ensures kind + "\n" + (headers + "\n" + body) == kind + "\n" + headers + "\n" + body
  {
  }

  /** Header values never contain a line break. */
  lemma {:induction false} ValuesAreLines(cut: string, t: Table)
    requires ReadHeaders(cut, t).Some?
    requires forall k :: k in t ==> '\n' !in t[k]
    ensures var t' := ReadHeaders(cut, t).value.0; forall k :: k in t' ==> '\n' !in t'[k]
    decreases |cut|
  {
    if cut[0] == '\n' {
    } else {
      var colon, line := Find(cut, ":").value, Find(cut, "\n").value;
      var v := cut[colon + 1..line];
      forall i | 0 <= i < |v| ensures v[i] != '\n' {
        assert !Occurs(cut, "\n", colon + 1 + i);
        assert cut[colon + 1 + i..colon + 2 + i] == [v[i]];
      }
      ValuesAreLines(cut[line + 1..], t[cut[..colon] := v]);
    }
  }

  /** The text a frame is printed as. */
  function Print(kind: string, headers: seq<(string, string)>, body: string): string {
    kind + "\n" + PrintHeaders(headers) + "\n" + body
  }

  /** A printed frame is received as it was meant. */
  lemma PrintedIsReceived(kind: string, headers: seq<(string, string)>, body: string)
    requires '\n' !in kind && Printable(headers)
    ensures var t := TableOf(headers, map[]);
            Parse(Print(kind, headers, body))
            == Some(Received(kind, (if body == "" then t else t["game_updates" := body])["FrameType" := kind],
                             "receipt" in t))
  {
    var rest := PrintHeaders(headers) + "\n" + body;
    assert Print(kind, headers, body) == kind + ['\n'] + rest;
    FindChar(kind, '\n', rest);
    assert Print(kind, headers, body)[|kind| + 1..] == rest;
    assert Print(kind, headers, body)[..|kind|] == kind;
    HeadersRoundTrip(headers, map[], body);
    assert ("\n" + body)[1..] == body;
  }

  /** One header more in front. */
  lemma HeaderInFront(h: (string, string), more: seq<(string, string)>, t: Table)
    ensures PrintHeaders([h] + more) == h.0 + ":" + h.1 + "\n" + PrintHeaders(more)
    ensures TableOf([h] + more, t) == TableOf(more, t[h.0 := h.1])
  {
    assert ([h] + more)[1..] == more;
  }

  lemma OneHeader(k: string, v: string, t: Table)
    ensures PrintHeaders([(k, v)]) == k + ":" + v + "\n" && TableOf([(k, v)], t) == t[k := v]
  {
    HeaderInFront((k, v), [], t);
    assert [(k, v)] + [] == [(k, v)];
    assert PrintHeaders([]) == "";
  }

  lemma TwoHeaders(k1: string, v1: string, k2: string, v2: string, t: Table)
    ensures PrintHeaders([(k1, v1), (k2, v2)]) == k1 + ":" + v1 + "\n" + k2 + ":" + v2 + "\n"
    ensures TableOf([(k1, v1), (k2, v2)], t) == t[k1 := v1][k2 := v2]
  {
    HeaderInFront((k1, v1), [(k2, v2)], t);
    assert [(k1, v1)] + [(k2, v2)] == [(k1, v1), (k2, v2)];
    hide PrintHeaders;
    hide TableOf;
    OneHeader(k2, v2, t[k1 := v1]);
  }

  lemma ThreeHeaders(k1: string, v1: string, k2: string, v2: string, k3: string, v3: string, t: Table)
    ensures PrintHeaders([(k1, v1), (k2, v2), (k3, v3)])
            == k1 + ":" + v1 + "\n" + k2 + ":" + v2 + "\n" + k3 + ":" + v3 + "\n"
    ensures TableOf([(k1, v1), (k2, v2), (k3, v3)], t) == t[k1 := v1][k2 := v2][k3 := v3]
  {
    HeaderInFront((k1, v1), [(k2, v2), (k3, v3)], t);
    assert [(k1, v1)] + [(k2, v2), (k3, v3)] == [(k1, v1), (k2, v2), (k3, v3)];
    hide PrintHeaders;
    hide TableOf;
    TwoHeaders(k2, v2, k3, v3, t[k1 := v1]);
  }

  // What the server prints, read as a frame.

  lemma ErrorWords()
    ensures "ERROR" + "\n" == "ERROR\n" && "receipt-id" + ":" == "receipt-id:" && "message" + ":" == "message:"
    ensures "\n" + "\n" + "The message:\n-----\n" == "\n\nThe message:\n-----\n"
  {
  }

  lemma ErrorGrouped(e: string, n: string, r: string, m: string, kind: string, t: string, o: string, mark: string,
                     d: string)
    ensures (e + n) + r + m + kind + (n + n + t) + o + mark + d == e + n + (r + (m + kind + n)) + n + (t + o + mark + d)
  {
  }

  lemma TwoLines(k1: string, k2: string, v1: string, v2: string)
    ensures k1 + ":" + v1 + "\n" + k2 + ":" + v2 + "\n" == ((k1 + ":") + v1 + "\n") + ((k2 + ":") + v2 + "\n")
  {
  }

  lemma ErrorPrinted(kind: string, original: string, description: string, receipt: Option<string>)
    ensures var r := if receipt.Some? then "receipt-id" + ":" + receipt.value + "\n" else "";
            Render(Error(kind, original, description, receipt))
            == "ERROR" + "\n" + (r + ("message" + ":" + kind + "\n")) + "\n"
               + ("The message:\n-----\n" + original + "\n-----" + description)
  {
    ErrorWords();
    var r := if receipt.Some? then "receipt-id" + ":" + receipt.value + "\n" else "";
    ErrorGrouped("ERROR", "\n", r, "message" + ":", kind, "The message:\n-----\n", original, "\n-----", description);
  }

  lemma MessageWords()
    ensures "subscription" + ":" == SUBSCRIPTION && "message-id" + ":" == MESSAGE_ID
            && "destination" + ":" == DESTINATION
  {
  }

  lemma ThreeLines(k1: string, k2: string, k3: string, v1: string, v2: string, v3: string)
    ensures k1 + ":" + v1 + "\n" + k2 + ":" + v2 + "\n" + k3 + ":" + v3 + "\n"
            == (k1 + ":") + v1 + "\n" + (k2 + ":") + v2 + "\n" + (k3 + ":") + v3 + "\n"
  {
  }

  lemma MessageGrouped(m: string, n: string, s: string, x: string, i: string, y: string, d: string, z: string,
                       body: string)
    ensures m + n + s + x + n + i + y + n + d + z + n + n + body
            == m + n + (s + x + n + i + y + n + d + z + n) + n + body
  {
  }

  /** A frame of the server, read with the server's own grammar, has the headers and the body meant. */
  predicate ReadAs(text: string, kind: string, t: Table, body: string) {
    && Parse(text).Some?
    && Parse(text).value.kind == kind
    && (forall k :: k in t ==> k in Parse(text).value.table && Parse(text).value.table[k] == t[k])
    && Parse(text).value.table.Keys == t.Keys + {"FrameType"} + (if body == "" then {} else {"game_updates"})
    && Get(Parse(text).value.table, "game_updates") == body
  }

  lemma PrintedReadAs(kind: string, headers: seq<(string, string)>, t: Table, body: string)
    requires '\n' !in kind && Printable(headers) && TableOf(headers, map[]) == t
    requires "FrameType" !in t && "game_updates" !in t
    ensures ReadAs(Print(kind, headers, body), kind, t, body)
  {
    hide Print;
    hide Parse;
    PrintedIsReceived(kind, headers, body);
  }

  lemma ConnectedIsRead()
    ensures ReadAs(Render(Connected), "CONNECTED", map["version" := "1.2"], "")
  {
    hide ReadAs;
    OneHeader("version", "1.2", map[]);
    assert Print("CONNECTED", [("version", "1.2")], "") == Render(Connected);
    PrintedReadAs("CONNECTED", [("version", "1.2")], map["version" := "1.2"], "");
  }

  lemma ReceiptIsRead(id: string)
    requires '\n' !in id
    ensures ReadAs(Render(Receipt(id)), "RECEIPT", map["receipt-id" := id], "")
  {
    hide ReadAs;
    OneHeader("receipt-id", id, map[]);
    assert Print("RECEIPT", [("receipt-id", id)], "") == Render(Receipt(id));
    PrintedReadAs("RECEIPT", [("receipt-id", id)], map["receipt-id" := id], "");
  }

  /** An ERROR has its kind under `message`, and under `receipt-id` the receipt that was asked for, if one was. */
  lemma ErrorIsRead(kind: string, original: string, description: string, receipt: Option<string>)
    requires '\n' !in kind && (receipt.Some? ==> '\n' !in receipt.value)
    ensures ReadAs(Render(Error(kind, original, description, receipt)), "ERROR",
                   if receipt.Some? then map["receipt-id" := receipt.value, "message" := kind]
                   else map["message" := kind],
                   "The message:\n-----\n" + original + "\n-----" + description)
  {
    hide ReadAs;
    hide Render;
    hide PrintHeaders;
    hide TableOf;
    var body := "The message:\n-----\n" + original + "\n-----" + description;
    ErrorPrinted(kind, original, description, receipt);
    if receipt.Some? {
      TwoHeaders("receipt-id", receipt.value, "message", kind, map[]);
      TwoLines("receipt-id", "message", receipt.value, kind);
      PrintedReadAs("ERROR", [("receipt-id", receipt.value), ("message", kind)],
                    map["receipt-id" := receipt.value]["message" := kind], body);
    } else {
      OneHeader("message", kind, map[]);
      assert "" + ("message" + ":" + kind + "\n") == "message" + ":" + kind + "\n";
      PrintedReadAs("ERROR", [("message", kind)], map["message" := kind], body);
    }
  }

  lemma MessageIsRead(subscription: string, id: string, destination: string, body: string)
    requires '\n' !in subscription && '\n' !in id && '\n' !in destination
    ensures ReadAs(Render(Message(subscription, id, destination, body)), "MESSAGE",
                   map["subscription" := subscription, "message-id" := id, "destination" := destination], body)
  {
    hide ReadAs;
    hide PrintHeaders;
    hide TableOf;
    hide SUBSCRIPTION;
    hide MESSAGE_ID;
    hide DESTINATION;
    ThreeHeaders("subscription", subscription, "message-id", id, "destination", destination, map[]);
    MessageWords();
    ThreeLines("subscription", "message-id", "destination", subscription, id, destination);
    MessageGrouped("MESSAGE", "\n", SUBSCRIPTION, subscription, MESSAGE_ID, id, DESTINATION, destination, body);
    PrintedReadAs("MESSAGE", [("subscription", subscription), ("message-id", id), ("destination", destination)],
                  map["subscription" := subscription]["message-id" := id]["destination" := destination], body);
  }
}
