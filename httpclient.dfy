/**
 * HttpClient of the detector: the JSON array of a scan batch, the HTTP/1.1
 * POST request that carries a JSON payload (request line per section 3 of
 * RFC 9112, Content-Length per section 8.6 of RFC 9110) and how each
 * sender decides that it succeeded. Sockets are left out: the connection
 * result, the send result and the received chunks are inputs.
 */
module HttpClient {
  import opened Wrappers
  import opened Text
  import opened Dto

  // ------------------------------------------------------------ JSON array

  /** Each scan's toJson, in order. */
  function ScanJsons(scans: seq<ScanRequest>, numberText: real -> string): (r: seq<string>)
    ensures |r| == |scans|
    ensures forall i :: 0 <= i < |scans| ==> r[i] == ScanToJson(scans[i], numberText)
  {
    seq(|scans|, i requires 0 <= i < |scans| => ScanToJson(scans[i], numberText))
  }

  /** Appending one more part to a non-empty join adds the separator and the part. */
  lemma {:induction false} JoinSnoc(parts: seq<string>, p: string, sep: string)
    requires parts != []
    ensures Join(parts + [p], sep) == Join(parts, sep) + sep + p
    decreases |parts|
  {
    if |parts| == 1 {
      assert parts + [p] == [parts[0], p];
    } else {
      assert (parts + [p])[1..] == parts[1..] + [p];
      JoinSnoc(parts[1..], p, sep);
    }
  }

  /** The loop of scansToJsonArray: "[" then the parts separated by commas, then "]". */
  method Bracketed(parts: seq<string>) returns (result: string)
    ensures result == "[" + Join(parts, ",") + "]"
  {
    result := "[";
    ghost var joined: string := "";
    var i := 0;
    while i < |parts|
      invariant 0 <= i <= |parts|
      invariant joined == Join(parts[..i], ",")
      invariant result == "[" + joined
    {
      assert parts[..i + 1] == parts[..i] + [parts[i]];
      if i > 0 {
        JoinSnoc(parts[..i], parts[i], ",");
        result := result + ",";
        joined := joined + ",";
      } else {
        assert Join([parts[i]], ",") == parts[i];
      }
      result := result + parts[i];
      joined := joined + parts[i];
      i := i + 1;
    }
    assert parts[..i] == parts;
    result := result + "]";
  }

  /** scansToJsonArray: each scan's toJson in order, comma-separated, in brackets. */
  method ScansToJsonArray(scans: seq<ScanRequest>, numberText: real -> string) returns (result: string)
    ensures result == "[" + Join(ScanJsons(scans, numberText), ",") + "]"
    ensures scans == [] ==> result == "[]"
    ensures |scans| == 1 ==> result == "[" + ScanToJson(scans[0], numberText) + "]"
  {
    result := Bracketed(ScanJsons(scans, numberText));
  }

  // -------------------------------------------------------- request framing

  /** Header lines each followed by CRLF. */
  function HeaderBlock(lines: seq<string>): string
  {
    if lines == [] then "" else lines[0] + "\r\n" + HeaderBlock(lines[1..])
  }

  /** The request line and header fields of a JSON POST. */
  function RequestLines(path: string, host: string, payload: string): seq<string>
  {
    ["POST " + path + " HTTP/1.1",
     "Host: " + host,
     "Content-Type: application/json",
     "Content-Length: " + NatToString(|payload|),
     "Connection: close"]
  }

  /** The whole request: the header block, an empty line, then the payload. */
  function Request(path: string, host: string, payload: string): string
  {
    HeaderBlock(RequestLines(path, host, payload)) + "\r\n" + payload
  }

  /** A header block grows by one line and its CRLF. */
  lemma {:induction false} HeaderBlockSnoc(lines: seq<string>, line: string)
    ensures HeaderBlock(lines + [line]) == HeaderBlock(lines) + line + "\r\n"
    decreases |lines|
  {
    if lines == [] {
      assert ([] + [line])[1..] == [];
    } else {
      assert (lines + [line])[1..] == lines[1..] + [line];
      HeaderBlockSnoc(lines[1..], line);
    }
  }

  /**
   * The request text as the ostringstream receives it, line by line; the
   * same framing serves sendScans, sendSystemStatus and sendSystemMessage.
   */
  method AssembleRequest(path: string, host: string, payload: string) returns (request: string)
    ensures request == Request(path, host, payload)
  {
    ghost var lines := RequestLines(path, host, payload);
    request := "";
    assert request == HeaderBlock(lines[..0]);
    request := request + ("POST " + path + " HTTP/1.1") + "\r\n";
    HeaderBlockSnoc(lines[..0], lines[0]);
    assert lines[..1] == lines[..0] + [lines[0]];
    request := request + ("Host: " + host) + "\r\n";
    HeaderBlockSnoc(lines[..1], lines[1]);
    assert lines[..2] == lines[..1] + [lines[1]];
    request := request + "Content-Type: application/json" + "\r\n";
    HeaderBlockSnoc(lines[..2], lines[2]);
    assert lines[..3] == lines[..2] + [lines[2]];
    request := request + ("Content-Length: " + NatToString(|payload|)) + "\r\n";
    HeaderBlockSnoc(lines[..3], lines[3]);
    assert lines[..4] == lines[..3] + [lines[3]];
    request := request + "Connection: close" + "\r\n";
    HeaderBlockSnoc(lines[..4], lines[4]);
    assert lines[..5] == lines[..4] + [lines[4]];
    assert lines[..5] == lines;
    request := request + "\r\n";
    request := request + payload;
  }

  /** What a server takes as the message body: everything after the first CRLF CRLF. */
  function BodyAfterBlankLine(s: string): Option<string>
    decreases |s|
  {
    if |s| < 4 then None
    else if s[..4] == "\r\n\r\n" then Some(s[4..])
    else BodyAfterBlankLine(s[1..])
  }

  /** Characters other than CR cannot start the blank line, so the search passes over them. */
  lemma {:induction false} SkipWithoutCR(a: string, rest: string)
    requires '\r' !in a
    ensures BodyAfterBlankLine(a + rest) == BodyAfterBlankLine(rest)
    decreases |a|
  {
    if a != [] {
      var s := a + rest;
      assert s[0] == a[0] && a[0] != '\r';
      if |s| >= 4 {
        assert s[..4][0] == s[0];
        assert s[..4] != "\r\n\r\n";
        assert BodyAfterBlankLine(s) == BodyAfterBlankLine(s[1..]);
        assert s[1..] == a[1..] + rest;
        assert '\r' !in a[1..] by {
          forall k | 0 <= k < |a[1..]| ensures a[1..][k] != '\r' { assert a[1..][k] == a[k + 1]; }
        }
        SkipWithoutCR(a[1..], rest);
      } else {
        assert |rest| < 4;
      }
    } else {
      assert a + rest == rest;
    }
  }

  /** A CRLF followed by a line that does not start with CR is not the blank line. */
  lemma CrLfBeforeLine(rest: string)
    requires |rest| >= 3 && rest[0] != '\r'
    ensures BodyAfterBlankLine("\r\n" + rest) == BodyAfterBlankLine(rest)
  {
    var s := "\r\n" + rest;
    assert s[..4][2] == rest[0];
    assert s[1..] == "\n" + rest;
    assert s[1..][..4][0] == '\n';
    assert s[1..][1..] == rest;
  }

  /** Two CRLFs in a row end the header block. */
  lemma BlankLineFound(body: string)
    ensures BodyAfterBlankLine("\r\n" + ("\r\n" + body)) == Some(body)
  {
    var s := "\r\n" + ("\r\n" + body);
    assert s[..4] == "\r\n\r\n";
    assert s[4..] == body;
  }

  /** The header block splits after its first line and CRLF. */
  lemma BlockSplit(lines: seq<string>, body: string)
    requires lines != []
    ensures HeaderBlock(lines) + "\r\n" + body == lines[0] + ("\r\n" + (HeaderBlock(lines[1..]) + "\r\n" + body))
  {
  }

  /** After non-empty header lines free of CR, the body found is exactly what follows the empty line. */
  lemma {:induction false} HeaderBlockBody(lines: seq<string>, body: string)
    requires lines != []
    requires forall i :: 0 <= i < |lines| ==> lines[i] != "" && '\r' !in lines[i]
    ensures BodyAfterBlankLine(HeaderBlock(lines) + "\r\n" + body) == Some(body)
    decreases |lines|
  {
    var first := lines[0];
    var next := lines[1..];
    var tail := HeaderBlock(next) + "\r\n" + body;
    BlockSplit(lines, body);
    SkipWithoutCR(first, "\r\n" + tail);
    if next == [] {
      assert tail == "\r\n" + body;
      BlankLineFound(body);
    } else {
      BlockSplit(next, body);
      assert next[0] == lines[1];
      assert tail[0] == next[0][0];
      CrLfBeforeLine(tail);
      HeaderBlockBody(next, body);
    }
  }

  /** A server reading the request finds the payload as the body, whatever the payload holds. */
  lemma RequestBodyIsPayload(path: string, host: string, payload: string)
    requires '\r' !in path && '\r' !in host
    ensures BodyAfterBlankLine(Request(path, host, payload)) == Some(payload)
  {
    var lines := RequestLines(path, host, payload);
    forall i | 0 <= i < |lines|
      ensures lines[i] != "" && '\r' !in lines[i]
    {
      if i == 3 {
        assert forall k :: 0 <= k < |NatToString(|payload|)| ==> IsDigit(NatToString(|payload|)[k]);
      }
    }
    HeaderBlockBody(lines, payload);
  }

  /** The value of the first header line that begins with "Content-Length: ", when it is all digits. */
  function ContentLength(lines: seq<string>): Option<nat>
  {
    if lines == [] then None
    else if StartsWith(lines[0], "Content-Length: ") then
      var v := lines[0][16..];
      if v != "" && AllDigits(v) then Some(DigitsValue(v)) else None
    else ContentLength(lines[1..])
  }

  /** The declared Content-Length is the payload's length. */
  lemma RequestDeclaresPayloadLength(path: string, host: string, payload: string)
    ensures ContentLength(RequestLines(path, host, payload)) == Some(|payload|)
  {
    var lines := RequestLines(path, host, payload);
    var key := "Content-Length: ";
    assert lines[0][0] == 'P' && key[0] == 'C';
    assert !StartsWith(lines[0], key) by { if |key| <= |lines[0]| { assert lines[0][..|key|][0] == lines[0][0]; } }
    assert !StartsWith(lines[1], key) by { if |key| <= |lines[1]| { assert lines[1][..|key|][0] == lines[1][0]; } }
    assert !StartsWith(lines[2], key) by { assert lines[2][..|key|][8] == 'T'; }
    assert StartsWith(lines[3], key) && lines[3][16..] == NatToString(|payload|);
    DigitsValueOfNatToString(|payload|);
    var l1, l2, l3 := lines[1..], lines[2..], lines[3..];
    assert l1[0] == lines[1] && l1[1..] == l2 && l2[0] == lines[2] && l2[1..] == l3 && l3[0] == lines[3];
    assert ContentLength(l3) == Some(|payload|);
    assert ContentLength(l2) == ContentLength(l3);
    assert ContentLength(l1) == ContentLength(l2);
    assert ContentLength(lines) == ContentLength(l1);
  }

  // ------------------------------------------------------------- senders

  /** The success marker sendScans looks for in the response. */
  const SuccessMarker := "HTTP/1.1 2"

  /** The response text gathered from the received chunks, each cut at its first NUL. */
  function Received(chunks: seq<string>): string
  {
    if chunks == [] then "" else Received(chunks[..|chunks| - 1]) + UpToNul(chunks[|chunks| - 1])
  }

  /** What one attempt to deliver a request puts on the wire: nothing without a connection. */
  datatype Outcome = Outcome(success: bool, sent: string)

  /**
   * sendScans: without a connection nothing is sent and the result is
   * false; a failed send is false; otherwise the response chunks are read
   * until recv returns nothing more, and the result is whether the response
   * ever contained "HTTP/1.1 2".
   */
  method SendScans(connected: bool, sendFailed: bool, chunks: seq<string>, path: string, host: string,
                   scans: seq<ScanRequest>, numberText: real -> string) returns (o: Outcome)
    ensures !connected ==> o == Outcome(false, "")
    ensures connected ==> o.sent == Request(path, host, "[" + Join(ScanJsons(scans, numberText), ",") + "]")
    ensures connected && sendFailed ==> !o.success
    ensures connected && !sendFailed ==> (o.success <==> Contains(Received(chunks), SuccessMarker))
  {
    if !connected {
      return Outcome(false, "");
    }
    var payload := ScansToJsonArray(scans, numberText);
    var request := AssembleRequest(path, host, payload);
    if sendFailed {
      return Outcome(false, request);
    }
    var response := "";
    var success := false;
    var k := 0;
    while k < |chunks|
      invariant 0 <= k <= |chunks|
      invariant response == Received(chunks[..k])
      invariant success <==> Contains(response, SuccessMarker)
    {
      assert chunks[..k + 1][..k] == chunks[..k];
      if Contains(response, SuccessMarker) {
        ContainsAppend(response, UpToNul(chunks[k]), SuccessMarker);
      }
      response := response + UpToNul(chunks[k]);
      if Contains(response, SuccessMarker) {
        success := true;
      }
      k := k + 1;
    }
    assert chunks[..k] == chunks;
    o := Outcome(success, request);
  }

  /** A marker in an early chunk is not undone by later chunks. */
  lemma {:induction false} SuccessIsKept(chunks: seq<string>, more: seq<string>)
    requires Contains(Received(chunks), SuccessMarker)
    ensures Contains(Received(chunks + more), SuccessMarker)
    decreases |more|
  {
    if more == [] {
      assert chunks + more == chunks;
    } else {
      var all := chunks + more;
      var init := chunks + more[..|more| - 1];
      assert all[..|all| - 1] == init;
      assert Received(all) == Received(init) + UpToNul(all[|all| - 1]);
      SuccessIsKept(chunks, more[..|more| - 1]);
      ContainsAppend(Received(init), UpToNul(all[|all| - 1]), SuccessMarker);
    }
  }

  /**
   * sendSystemStatus and sendSystemMessage: the same request framing with
   * the DTO's JSON; the result is only whether the connection and the send
   * succeeded, no response is read.
   */
  method SendJson(connected: bool, sendFailed: bool, path: string, host: string, json: string) returns (o: Outcome)
    ensures o.success <==> connected && !sendFailed
    ensures o.sent == (if connected then Request(path, host, json) else "")
  {
    if !connected {
      return Outcome(false, "");
    }
    var request := AssembleRequest(path, host, json);
    o := Outcome(!sendFailed, request);
  }

  /** initialize: nothing to set up outside Windows, so it always reports success. */
  method Initialize() returns (ok: bool)
    ensures ok
  {
    ok := true;
  }
}
