/**
 * The mobile client's ApiService without the network: how a reply is
 * classified (parseReply), which error text a command shows, the product
 * icons, the product cache lookups, the filtering of scans by product, the
 * early exits of the statistics and product-detail requests, and the
 * restart flag. JSON documents are values of a small JSON datatype; what
 * QJsonDocument::fromJson would parse is given as input.
 */
module Mobile {
  import opened Wrappers
  import opened Text
  import opened QtJson

  const Apple := "\U{1F34E}"
  const Potato := "\U{1F954}"
  const Orange := "\U{1F34A}"
  const Package := "\U{1F4E6}"

  // ------------------------------------------------------------ JSON access

  /** The string value of the first key, in priority order, that holds a string. */
  function FirstString(o: JsonObject, keys: seq<string>): (r: Option<string>)
    ensures r.Some? <==> exists i :: 0 <= i < |keys| && StringField(o, keys[i]).Some?
    ensures r.Some? ==> exists i :: (0 <= i < |keys| && StringField(o, keys[i]) == r
      && forall j :: 0 <= j < i ==> StringField(o, keys[j]).None?)
  {
    if keys == [] then None
    else if StringField(o, keys[0]).Some? then StringField(o, keys[0])
    else
      var r := FirstString(o, keys[1..]);
      assert forall i :: 1 <= i < |keys| ==> keys[i] == keys[1..][i - 1];
      if r.Some? then
        ghost var i :| 0 <= i < |keys[1..]| && StringField(o, keys[1..][i]) == r
          && forall j :: 0 <= j < i ==> StringField(o, keys[1..][j]).None?;
        assert StringField(o, keys[i + 1]) == r;
        r
      else r
  }

  // ------------------------------------------------------------ parseReply

  /**
   * A finished request: whether Qt reported a network error, its error
   * string, the HTTP status attribute, and the document the body parses to
   * (None when it does not parse).
   */
  datatype Reply = Reply(networkError: bool, errorString: string, httpStatus: int, document: Option<Json>)

  /**
   * What parseReply returns, the message of the networkError signal it
   * emits, if any, and the text of the generalMessage("error", ...) banner
   * emitted with it.
   */
  datatype Parsed = Parsed(obj: JsonObject, error: Option<string>, banner: Option<string>)

  /** The text of parseReply's application-error banner. */
  function AppError(context: string, what: string): string
  {
    "Application Error (" + context + "): " + what
  }

  /** The banner messages a parsed reply has already shown. */
  function Banner(p: Parsed): seq<Message>
  {
    if p.banner.Some? then [Message("error", p.banner.value)] else []
  }

  function DocumentObject(d: Option<Json>): JsonObject
  {
    if d.Some? && d.value.JObject? then d.value.fields else map[]
  }

  function Left(s: string, n: nat): (r: string)
    ensures |r| <= n && (|s| <= n ==> r == s)
  {
    if |s| <= n then s else s[..n]
  }

  /** The detail of a non-200 status: result, error, message, detail, or the start of the whole object. */
  function StatusDetail(o: JsonObject, compact: JsonObject -> string): string
  {
    match FirstString(o, ["result", "error", "message", "detail"])
    case Some(d) => d
    case None => "Unspecified API error. Full response: " + Left(compact(o), 150)
  }

  /** The server's own words on a network error: message, error, then detail, when not empty. */
  function ServerSuffix(o: JsonObject): string
  {
    match FirstString(o, ["message", "error", "detail"])
    case Some(m) => if m == "" then "" else " - Server: " + m
    case None => ""
  }

  /**
   * parseReply: a null reply gives an empty object; a network error gives
   * whatever object the body holds; a body that is not a JSON object gives
   * an empty object; otherwise the object itself, which for every context
   * except "/login" is also reported as an error when its status is
   * missing or not 200, or when it has no result.
   */
  function ParseReply(reply: Option<Reply>, context: string, compact: JsonObject -> string): (p: Parsed)
    ensures p.error.Some? <==> p.banner.Some?
    ensures reply.None? ==>
      p.obj == map[] && p.error.Some? && p.banner == Some(AppError(context, "Network reply was unexpectedly null."))
    ensures reply.Some? && reply.value.networkError ==>
      p.obj == DocumentObject(reply.value.document) && p.error.Some?
      && p.banner == Some("Network Error (" + context + "): " + p.error.value)
  {
    match reply
    case None =>
      Parsed(map[], Some("Internal error: Null network reply object."), Some(AppError(context, "Network reply was unexpectedly null.")))
    case Some(r) =>
      if r.networkError then
        var body := DocumentObject(r.document);
        var message := r.errorString + " (HTTP " + IntToString(r.httpStatus) + ")" + ServerSuffix(body);
        Parsed(body, Some(message), Some("Network Error (" + context + "): " + message))
      else if r.document.None? || !r.document.value.JObject? then
        Parsed(map[], Some("Invalid JSON response from server."),
          Some(AppError(context, "Could not understand server response (not valid JSON object).")))
      else
        var o := r.document.value.fields;
        if context == "/login" then Parsed(o, None, None)
        else if "status" !in o then
          Parsed(o, Some("Malformed API response: 'status' field missing."),
            Some(AppError(context, "Malformed server response (missing 'status').")))
        else
          var status := IntField(o, "status", -1);
          if status != 200 then
            var detail := StatusDetail(o, compact);
            Parsed(o, Some("API Error on " + context + " (API Status: " + IntToString(status) + "): " + detail),
              Some("Server Error (" + context + ", Status " + IntToString(status) + "): " + detail))
          else if "result" !in o then
            Parsed(o, Some("API success status but 'result' field missing."),
              Some(AppError(context, "Malformed success response from server (missing 'result').")))
          else Parsed(o, None, None)
  }

  /** For a readable reply the object itself comes back, and an error is signalled exactly when status or result is wrong. */
  lemma ParseReplyOnObject(o: JsonObject, httpStatus: int, context: string, compact: JsonObject -> string)
    ensures var p := ParseReply(Some(Reply(false, "", httpStatus, Some(JObject(o)))), context, compact);
      p.obj == o
      && (p.error.None? <==> (context == "/login" || ("status" in o && IntField(o, "status", -1) == 200 && "result" in o)))
  {
  }

  /** A status other than 200 is reported twice: as the API error and as a server-error banner, with the same detail. */
  lemma StatusErrorBanner(o: JsonObject, httpStatus: int, context: string, compact: JsonObject -> string)
    requires context != "/login" && "status" in o && IntField(o, "status", -1) != 200
    ensures var p := ParseReply(Some(Reply(false, "", httpStatus, Some(JObject(o)))), context, compact);
      var status := IntToString(IntField(o, "status", -1));
      p.error == Some("API Error on " + context + " (API Status: " + status + "): " + StatusDetail(o, compact))
      && p.banner == Some("Server Error (" + context + ", Status " + status + "): " + StatusDetail(o, compact))
  {
  }

  /** A body that is not a JSON object, without a network error, always yields an empty object and an error. */
  lemma ParseReplyOnNonObject(d: Option<Json>, httpStatus: int, context: string, compact: JsonObject -> string)
    requires d.None? || !d.value.JObject?
    ensures ParseReply(Some(Reply(false, "", httpStatus, d)), context, compact)
         == Parsed(map[], Some("Invalid JSON response from server."),
              Some(AppError(context, "Could not understand server response (not valid JSON object).")))
  {
  }

  /** The non-200 detail takes result before error before message before detail. */
  lemma StatusDetailPriority(o: JsonObject, compact: JsonObject -> string)
    ensures StringField(o, "result").Some? ==> StatusDetail(o, compact) == StringField(o, "result").value
    ensures StringField(o, "result").None? && StringField(o, "error").Some? ==> StatusDetail(o, compact) == StringField(o, "error").value
    ensures StringField(o, "result").None? && StringField(o, "error").None? && StringField(o, "message").Some?
      ==> StatusDetail(o, compact) == StringField(o, "message").value
  {
    var keys := ["result", "error", "message", "detail"];
    if StringField(o, "result").None? {
      FirstStringSkip(o, keys);
      assert keys[1..] == ["error", "message", "detail"];
      if StringField(o, "error").None? {
        FirstStringSkip(o, keys[1..]);
        assert keys[1..][1..] == ["message", "detail"];
      }
    }
  }

  /** A first key without text is passed over. */
  lemma FirstStringSkip(o: JsonObject, keys: seq<string>)
    requires keys != [] && StringField(o, keys[0]).None?
    ensures FirstString(o, keys) == FirstString(o, keys[1..])
  {
  }

  // ------------------------------------------------------------ command replies

  /** The error text of the start/stop/reverse/accuracy handlers: result, error, message, the reply's error string, then a fallback. */
  function CommandError(o: JsonObject, networkError: bool, errorString: string, doing: string): string
  {
    match FirstString(o, ["result", "error", "message"])
    case Some(m) => m
    case None =>
      if networkError then errorString
      else "Unknown error " + doing + ". API Status: " + IntToString(IntField(o, "status", -1))
  }

  /** When the object carries result, error or message text, the handler shows the same detail parseReply reported. */
  lemma CommandErrorAgreesWithParser(o: JsonObject, networkError: bool, errorString: string, doing: string, compact: JsonObject -> string)
    requires FirstString(o, ["result", "error", "message"]).Some?
    ensures CommandError(o, networkError, errorString, doing) == StatusDetail(o, compact)
  {
    var keys := ["result", "error", "message", "detail"];
    assert keys[..3] == ["result", "error", "message"];
    FirstStringPrefix(o, keys, 3);
  }

  lemma {:induction false} FirstStringPrefix(o: JsonObject, keys: seq<string>, n: nat)
    requires n <= |keys| && FirstString(o, keys[..n]).Some?
    ensures FirstString(o, keys) == FirstString(o, keys[..n])
    decreases n
  {
    var prefix := keys[..n];
    assert prefix[0] == keys[0];
    if StringField(o, keys[0]).None? {
      assert prefix[1..] == keys[1..][..n - 1];
      FirstStringSkip(o, keys);
      FirstStringSkip(o, prefix);
      FirstStringPrefix(o, keys[1..], n - 1);
    } else {
      FirstStringTakesHead(o, keys);
      FirstStringTakesHead(o, prefix);
    }
  }

  /** A first key holding a string gives that string. */
  lemma FirstStringTakesHead(o: JsonObject, keys: seq<string>)
    requires keys != [] && StringField(o, keys[0]).Some?
    ensures FirstString(o, keys) == StringField(o, keys[0])
  {
  }

  /** A command reply counts as success when Qt saw no error and the status is 200. */
  predicate CommandSucceeded(networkError: bool, o: JsonObject)
  {
    !networkError && IntField(o, "status", 0) == 200
  }

  /** A message for the general message banner: its kind and text. */
  datatype Message = Message(kind: string, text: string)

  // ------------------------------------------------------------ icons

  function UpperChar(c: char): char
  {
    if 'a' <= c <= 'z' then (c as int - 32) as char else c
  }

  function LowerChar(c: char): char
  {
    if 'A' <= c <= 'Z' then (c as int + 32) as char else c
  }

  function Upper(s: string): (r: string)
    ensures |r| == |s| && forall i :: 0 <= i < |s| ==> r[i] == UpperChar(s[i])
  {
    if s == [] then [] else [UpperChar(s[0])] + Upper(s[1..])
  }

  function Lower(s: string): (r: string)
    ensures |r| == |s| && forall i :: 0 <= i < |s| ==> r[i] == LowerChar(s[i])
  {
    if s == [] then [] else [LowerChar(s[0])] + Lower(s[1..])
  }

  predicate EqualsIgnoreCase(a: string, b: string) { Upper(a) == Upper(b) }

  predicate ContainsIgnoreCase(s: string, word: string) { Contains(Lower(s), word) }

  /** The icon of a product id spelled in capitals. */
  function NameIcon(upper: string): Option<string>
  {
    if upper == "APPLE" then Some(Apple)
    else if upper == "POTATO" then Some(Potato)
    else if upper == "ORANGE" then Some(Orange)
    else None
  }

  /** The first cached product matching by id or image id whose own id names an icon. */
  function CacheIcon(cache: seq<JsonObject>, key: string, number: real -> string): (r: Option<string>)
    ensures r.Some? ==> r.value in {Apple, Potato, Orange}
  {
    if cache == [] then None
    else
      var p := cache[0];
      var matches := EqualsIgnoreCase(VariantField(p, "id", number), key) || EqualsIgnoreCase(VariantField(p, "imageId", number), key);
      if matches && NameIcon(Upper(VariantField(p, "id", number))).Some? then NameIcon(Upper(VariantField(p, "id", number)))
      else CacheIcon(cache[1..], key, number)
  }

  /** The last resort: words in the key; "banana" is shown with the potato icon. */
  function KeywordIcon(key: string): string
  {
    if ContainsIgnoreCase(key, "apple") then Apple
    else if ContainsIgnoreCase(key, "banana") then Potato
    else if ContainsIgnoreCase(key, "orange") then Orange
    else Package
  }

  /** getProductIcon: the key's own name, then the product cache, then keywords. */
  function ProductIcon(key: string, cache: seq<JsonObject>, number: real -> string): string
  {
    match NameIcon(Upper(key))
    case Some(icon) => icon
    case None =>
      match CacheIcon(cache, key, number)
      case Some(icon) => icon
      case None => KeywordIcon(key)
  }

  /** Every key gets one of the four icons. */
  lemma IconIsKnown(key: string, cache: seq<JsonObject>, number: real -> string)
    ensures ProductIcon(key, cache, number) in {Apple, Potato, Orange, Package}
  {
  }

  /** The three product names are recognised whatever their case and whatever the cache holds. */
  lemma NamesIgnoreCase(cache: seq<JsonObject>, number: real -> string)
    ensures ProductIcon("apple", cache, number) == Apple && ProductIcon("Potato", cache, number) == Potato
    ensures ProductIcon("ORANGE", cache, number) == Orange
  {
    UpperIs("apple", "APPLE");
    UpperIs("Potato", "POTATO");
    UpperIs("ORANGE", "ORANGE");
  }

  /** Upper(s) is u when u holds s's characters in capitals. */
  lemma UpperIs(s: string, u: string)
    requires |s| == |u| && forall i :: 0 <= i < |s| ==> UpperChar(s[i]) == u[i]
    ensures Upper(s) == u
  {
  }

  /** A cached product whose image id is the key lends its id's icon to that key. */
  lemma ImageIdFindsProduct(imageId: string, id: string, rest: seq<JsonObject>, number: real -> string)
    requires NameIcon(Upper(imageId)).None? && NameIcon(Upper(id)).Some?
    ensures ProductIcon(imageId, [map["id" := JString(id), "imageId" := JString(imageId)]] + rest, number) == NameIcon(Upper(id)).value
  {
    var p: JsonObject := map["id" := JString(id), "imageId" := JString(imageId)];
    assert VariantField(p, "imageId", number) == imageId && VariantField(p, "id", number) == id;
    assert ([p] + rest)[0] == p;
  }

  /** Nothing in the cache matches a key that no cached product carries. */
  lemma {:induction false} NoMatchNoCacheIcon(cache: seq<JsonObject>, key: string, number: real -> string)
    requires forall i :: 0 <= i < |cache| ==> !EqualsIgnoreCase(VariantField(cache[i], "id", number), key) && !EqualsIgnoreCase(VariantField(cache[i], "imageId", number), key)
    ensures CacheIcon(cache, key, number).None?
  {
    if cache != [] {
      NoMatchNoCacheIcon(cache[1..], key, number);
    }
  }

  // ------------------------------------------------------------ product lookup

  /** getProductById: the first cached product whose id is exactly the argument, else an empty map. */
  function ProductById(cache: seq<JsonObject>, id: string, number: real -> string): (r: JsonObject)
    ensures r != map[] ==> exists i :: 0 <= i < |cache| && cache[i] == r && VariantField(r, "id", number) == id
  {
    if cache == [] then map[]
    else if VariantField(cache[0], "id", number) == id then cache[0]
    else ProductById(cache[1..], id, number)
  }

  /** The lookup finds the first product with the id, and nothing when none has it. */
  lemma {:induction false} ProductByIdFirst(cache: seq<JsonObject>, id: string, k: nat, number: real -> string)
    requires k < |cache| && VariantField(cache[k], "id", number) == id
    requires forall j :: 0 <= j < k ==> VariantField(cache[j], "id", number) != id
    ensures ProductById(cache, id, number) == cache[k]
    decreases k
  {
    if k > 0 {
      ProductByIdFirst(cache[1..], id, k - 1, number);
    }
  }

  lemma {:induction false} ProductByIdMissing(cache: seq<JsonObject>, id: string, number: real -> string)
    requires forall j :: 0 <= j < |cache| ==> VariantField(cache[j], "id", number) != id
    ensures ProductById(cache, id, number) == map[]
  {
    if cache != [] {
      ProductByIdMissing(cache[1..], id, number);
    }
  }

  /** A numeric id in the cache is found by its rendered text, as QVariant::toString reads it. */
  lemma NumericIdFound(rest: seq<JsonObject>, number: real -> string)
    requires number(5.0) == "5"
    ensures ProductById([map["id" := JNumber(5.0), "name" := JString("Apple")]] + rest, "5", number)
         == map["id" := JNumber(5.0), "name" := JString("Apple")]
  {
    var p: JsonObject := map["id" := JNumber(5.0), "name" := JString("Apple")];
    assert VariantField(p, "id", number) == "5";
    assert ([p] + rest)[0] == p;
  }

  /** The name and icon a scan or statistic row is shown with. */
  function Enrich(scan: JsonObject, cache: seq<JsonObject>, number: real -> string): (r: JsonObject)
    ensures forall k :: k in scan && k != "productName" && k != "productIcon" ==> k in r && r[k] == scan[k]
    ensures "productName" in r && "productIcon" in r
  {
    var productId := VariantField(scan, "productId", number);
    var product := ProductById(cache, productId, number);
    var name := if "name" in product then product["name"] else JString(productId);
    var iconKey := if "imageId" in product then VariantField(product, "imageId", number) else productId;
    scan["productName" := name]["productIcon" := JString(ProductIcon(iconKey, cache, number))]
  }

  predicate Wanted(scan: JsonObject, productId: string, number: real -> string)
  {
    productId == "" || VariantField(scan, "productId", number) == productId
  }

  /** The scans fetchScansForRange emits: the wanted ones, in order, enriched. */
  function ScansForRange(scans: seq<Json>, productId: string, cache: seq<JsonObject>, number: real -> string): seq<JsonObject>
  {
    if scans == [] then []
    else
      var scan := AsObject(scans[0]);
      (if Wanted(scan, productId, number) then [Enrich(scan, cache, number)] else []) + ScansForRange(scans[1..], productId, cache, number)
  }

  lemma ScansForRangeStep(scans: seq<Json>, k: int, productId: string, cache: seq<JsonObject>, number: real -> string)
    requires 0 <= k < |scans|
    ensures var scan := AsObject(scans[k]);
      ScansForRange(scans[k..], productId, cache, number)
      == (if Wanted(scan, productId, number) then [Enrich(scan, cache, number)] else []) + ScansForRange(scans[k + 1..], productId, cache, number)
  {
    assert scans[k..][1..] == scans[k + 1..];
  }

  /** The loop of fetchScansForRange: each wanted scan, enriched, appended in turn. */
  method KeepScans(all: seq<Json>, productId: string, cache: seq<JsonObject>, number: real -> string) returns (result: seq<JsonObject>)
    ensures result == ScansForRange(all, productId, cache, number)
  {
    result := [];
    var k := 0;
    while k < |all|
      invariant 0 <= k <= |all|
      invariant result + ScansForRange(all[k..], productId, cache, number) == ScansForRange(all, productId, cache, number)
    {
      var scan := AsObject(all[k]);
      var wanted := productId == "" || VariantField(scan, "productId", number) == productId;
      KeepScansStep(all, k, productId, cache, result, number);
      if wanted {
        result := result + [Enrich(scan, cache, number)];
      }
      k := k + 1;
    }
    assert all[k..] == [];
    assert result + [] == result;
  }

  /** The scans kept so far, followed by those kept from the next one on, are all the scans kept. */
  lemma KeepScansStep(all: seq<Json>, k: int, productId: string, cache: seq<JsonObject>, result: seq<JsonObject>, number: real -> string)
    requires 0 <= k < |all|
    requires result + ScansForRange(all[k..], productId, cache, number) == ScansForRange(all, productId, cache, number)
    ensures var scan := AsObject(all[k]);
      (if Wanted(scan, productId, number) then result + [Enrich(scan, cache, number)] else result)
        + ScansForRange(all[k + 1..], productId, cache, number) == ScansForRange(all, productId, cache, number)
  {
    var scan := AsObject(all[k]);
    var rest := ScansForRange(all[k + 1..], productId, cache, number);
    ScansForRangeStep(all, k, productId, cache, number);
    if Wanted(scan, productId, number) {
      assert result + ([Enrich(scan, cache, number)] + rest) == (result + [Enrich(scan, cache, number)]) + rest;
    } else {
      assert [] + rest == rest;
    }
  }

  /** With no product chosen every scan is kept; with one, every kept scan is of that product. */
  lemma {:induction false} ScansForRangeFilter(scans: seq<Json>, productId: string, cache: seq<JsonObject>, number: real -> string)
    ensures productId == "" ==> |ScansForRange(scans, productId, cache, number)| == |scans|
    ensures forall r :: r in ScansForRange(scans, productId, cache, number) ==> Wanted(r, productId, number)
    ensures |ScansForRange(scans, productId, cache, number)| <= |scans|
    ensures forall i :: 0 <= i < |scans| && Wanted(AsObject(scans[i]), productId, number) ==>
      Enrich(AsObject(scans[i]), cache, number) in ScansForRange(scans, productId, cache, number)
  {
    if scans != [] {
      ScansForRangeFilter(scans[1..], productId, cache, number);
      assert forall i :: 1 <= i < |scans| ==> scans[i] == scans[1..][i - 1];
      var scan := AsObject(scans[0]);
      if Wanted(scan, productId, number) && productId != "" {
        assert VariantField(Enrich(scan, cache, number), "productId", number) == VariantField(scan, "productId", number);
      }
    }
  }

  /** A scan whose productId is the number 5 is kept when the chosen product is "5". */
  lemma NumericProductIdKept(cache: seq<JsonObject>, number: real -> string)
    requires number(5.0) == "5"
    ensures |ScansForRange([JObject(map["productId" := JNumber(5.0)])], "5", cache, number)| == 1
  {
    var scans := [JObject(map["productId" := JNumber(5.0)])];
    assert VariantField(AsObject(scans[0]), "productId", number) == "5";
    assert scans[1..] == [];
  }

  /** What fetchScansForRange emits for a parsed reply: nothing after a network error with no body, an empty list without result, else the filtered scans. */
  function ScansForRangeReply(p: Parsed, networkError: bool, productId: string, cache: seq<JsonObject>, number: real -> string): Option<seq<JsonObject>>
  {
    if p.obj == map[] && networkError then None
    else if p.obj == map[] || "result" !in p.obj then Some([])
    else Some(ScansForRange(AsArray(p.obj["result"]), productId, cache, number))
  }

  // ------------------------------------------------------------ requests

  /** The outcome of asking for statistics or details: an empty answer emitted at once, or a request with its context. */
  datatype Request = EmitEmpty(context: string) | Send(context: string, path: string)

  /**
   * fetchScanStatistics before any network traffic: empty or unparsable
   * dates answer at once with an empty map; otherwise the request goes
   * out under the caller's context, or a generated one.
   */
  function ScanStatistics(startIso: string, endIso: string, context: string, productId: string,
                          startValid: bool, endValid: bool, nowMs: int): (r: Request)
    ensures r.EmitEmpty? <==> startIso == "" || endIso == "" || !startValid || !endValid
    ensures r.context != ""
    ensures context != "" ==> r.context == context
  {
    if startIso == "" || endIso == "" then
      EmitEmpty(if context == "" then "scanStats_empty_date" else context)
    else if !startValid || !endValid then
      EmitEmpty(if context == "" then "scanStats_invalid_date" else context)
    else
      var generated := "scanStats_" + (if productId == "" then "" else productId + "_") + IntToString(nowMs);
      Send(if context == "" then generated else context, "/scans/statistics")
  }

  /** fetchProductDetails: an empty id answers at once with an empty map. */
  function ProductDetails(productId: string): (r: Request)
    ensures r.EmitEmpty? <==> productId == ""
    ensures r.Send? ==> r.path == "/product/" + productId
  {
    if productId == "" then EmitEmpty("") else Send("", "/product/" + productId)
  }

  // ------------------------------------------------------------ the service

  /** The service's own state: the product cache and the restart flag. */
  class ApiService {
    var productListCache: seq<JsonObject>
    var isRestarting: bool

    /** No code path raises the restart flag. */
    predicate Valid()
      reads this
    {
      !isRestarting
    }

    constructor ()
      ensures Valid() && productListCache == []
    {
      productListCache := [];
      isRestarting := false;
    }

    /** getProductIcon over the current cache. */
    method GetProductIcon(key: string, number: real -> string) returns (icon: string)
      ensures icon == ProductIcon(key, productListCache, number)
    {
      icon := LookupIcon(key, productListCache, number);
    }

    /** getProductById over the current cache. */
    method GetProductById(id: string, number: real -> string) returns (product: JsonObject)
      ensures product == ProductById(productListCache, id, number)
    {
      var k := 0;
      while k < |productListCache|
        invariant 0 <= k <= |productListCache|
        invariant ProductById(productListCache, id, number) == ProductById(productListCache[k..], id, number)
      {
        assert productListCache[k..][1..] == productListCache[k + 1..];
        if VariantField(productListCache[k], "id", number) == id {
          return productListCache[k];
        }
        k := k + 1;
      }
      product := map[];
    }

    /** The wanted scans of a result array, enriched, built with a loop. */
    method FilterScans(all: seq<Json>, productId: string, number: real -> string) returns (result: seq<JsonObject>)
      ensures result == ScansForRange(all, productId, productListCache, number)
    {
      result := KeepScans(all, productId, productListCache, number);
    }

    /** The reply to a scan-range request. */
    method OnScansForRange(p: Parsed, networkError: bool, productId: string, number: real -> string) returns (emitted: Option<seq<JsonObject>>)
      ensures emitted == ScansForRangeReply(p, networkError, productId, productListCache, number)
    {
      if p.obj == map[] && networkError {
        return None;
      }
      if p.obj == map[] || "result" !in p.obj {
        return Some([]);
      }
      var result := FilterScans(AsArray(p.obj["result"]), productId, number);
      emitted := Some(result);
    }

    /** Each cached product with its icon, looked up in the same cache. */
    method ProductsWithIcons(number: real -> string) returns (enriched: seq<JsonObject>)
      ensures |enriched| == |productListCache|
      ensures forall i :: 0 <= i < |productListCache| ==> enriched[i] == WithIcon(productListCache[i], productListCache, number)
    {
      enriched := EnrichProducts(productListCache, number);
    }

    /**
     * The products reply: it replaces the cache with the result array and
     * emits each product with its icon, looked up in the new cache; an
     * empty or result-less reply leaves the cache alone.
     */
    method OnProducts(p: Parsed, networkError: bool, number: real -> string) returns (emitted: Option<seq<JsonObject>>)
      modifies this
      ensures isRestarting == old(isRestarting)
      ensures p.obj == map[] || "result" !in p.obj ==> productListCache == old(productListCache)
      ensures p.obj == map[] && networkError ==> emitted.None?
      ensures (p.obj == map[] || "result" !in p.obj) && !(p.obj == map[] && networkError) ==> emitted == Some([])
      ensures p.obj != map[] && "result" in p.obj ==>
        productListCache == Objects(AsArray(p.obj["result"]))
        && emitted.Some? && |emitted.value| == |productListCache|
        && forall i :: 0 <= i < |productListCache| ==> emitted.value[i] == WithIcon(productListCache[i], productListCache, number)
    {
      if p.obj == map[] && networkError {
        return None;
      }
      if p.obj == map[] || "result" !in p.obj {
        return Some([]);
      }
      productListCache := Objects(AsArray(p.obj["result"]));
      var enriched := ProductsWithIcons(number);
      emitted := Some(enriched);
    }

    /**
     * The start reply. Success reports it, and a finished restart when the
     * flag was up; failure reports the handler's error text. Either way the
     * flag ends down.
     */
    method OnStartSystem(networkError: bool, errorString: string, p: Parsed) returns (messages: seq<Message>)
      modifies this
      ensures !isRestarting && productListCache == old(productListCache)
      ensures CommandSucceeded(networkError, p.obj) ==>
        messages == Banner(p) + [Message("success", "System started successfully.")]
          + (if old(isRestarting) then [Message("success", "System restarted successfully.")] else [])
      ensures !CommandSucceeded(networkError, p.obj) ==>
        messages == Banner(p)
          + [Message("error", "Failed to start system: " + CommandError(p.obj, networkError, errorString, "starting system"))]
    {
      var o := p.obj;
      messages := Banner(p);
      if !networkError && IntField(o, "status", 0) == 200 {
        messages := messages + [Message("success", "System started successfully.")];
        if isRestarting {
          isRestarting := false;
          messages := messages + [Message("success", "System restarted successfully.")];
        }
      } else {
        var errorMsg := CommandError(o, networkError, errorString, "starting system");
        messages := messages + [Message("error", "Failed to start system: " + errorMsg)];
        isRestarting := false;
      }
    }

    /**
     * The stop reply: a successful stop starts the system again only when
     * the restart flag is up; a failed one lowers the flag.
     */
    method OnStopSystem(networkError: bool, errorString: string, p: Parsed) returns (messages: seq<Message>, restart: bool)
      modifies this
      ensures productListCache == old(productListCache)
      ensures restart <==> CommandSucceeded(networkError, p.obj) && old(isRestarting)
      ensures isRestarting <==> restart
      ensures CommandSucceeded(networkError, p.obj) ==>
        messages == Banner(p) + [if old(isRestarting) then Message("info", "Restarting system: Starting...")
                                 else Message("success", "System stopped successfully.")]
      ensures !CommandSucceeded(networkError, p.obj) ==>
        messages == Banner(p)
          + [Message("error", "Failed to stop system: " + CommandError(p.obj, networkError, errorString, "stopping system"))]
          + (if old(isRestarting) then [Message("error", "Restart failed: Could not stop system properly.")] else [])
    {
      var o := p.obj;
      messages := Banner(p);
      restart := false;
      if !networkError && IntField(o, "status", 0) == 200 {
        if isRestarting {
          messages := messages + [Message("info", "Restarting system: Starting...")];
          restart := true;
        } else {
          messages := messages + [Message("success", "System stopped successfully.")];
        }
      } else {
        var errorMsg := CommandError(o, networkError, errorString, "stopping system");
        messages := messages + [Message("error", "Failed to stop system: " + errorMsg)];
        if isRestarting {
          messages := messages + [Message("error", "Restart failed: Could not stop system properly.")];
          isRestarting := false;
        }
      }
    }
  }

  /** The products of a result array, each read as a map. */
  function Objects(items: seq<Json>): (r: seq<JsonObject>)
    ensures |r| == |items| && forall i :: 0 <= i < |items| ==> r[i] == AsObject(items[i])
  {
    if items == [] then [] else [AsObject(items[0])] + Objects(items[1..])
  }

  /** The body of getProductIcon: the fruit names, then the cache scan as a loop that returns early. */
  method LookupIcon(key: string, cache: seq<JsonObject>, number: real -> string) returns (icon: string)
    ensures icon == ProductIcon(key, cache, number)
  {
    var upper := Upper(key);
    if upper == "APPLE" { return Apple; }
    if upper == "POTATO" { return Potato; }
    if upper == "ORANGE" { return Orange; }
    var k := 0;
    while k < |cache|
      invariant 0 <= k <= |cache|
      invariant CacheIcon(cache, key, number) == CacheIcon(cache[k..], key, number)
    {
      var p := cache[k];
      assert cache[k..][0] == p && cache[k..][1..] == cache[k + 1..];
      var id := VariantField(p, "id", number);
      if EqualsIgnoreCase(id, key) || EqualsIgnoreCase(VariantField(p, "imageId", number), key) {
        var idUpper := Upper(id);
        if idUpper == "APPLE" { return Apple; }
        if idUpper == "POTATO" { return Potato; }
        if idUpper == "ORANGE" { return Orange; }
      }
      k := k + 1;
    }
    icon := KeywordIcon(key);
  }

  /** The loop of the products reply: each product with its icon, in order. */
  method EnrichProducts(cache: seq<JsonObject>, number: real -> string) returns (enriched: seq<JsonObject>)
    ensures |enriched| == |cache|
    ensures forall i :: 0 <= i < |cache| ==> enriched[i] == WithIcon(cache[i], cache, number)
  {
    enriched := [];
    var k := 0;
    while k < |cache|
      invariant 0 <= k <= |cache| && |enriched| == k
      invariant forall i :: 0 <= i < k ==> enriched[i] == WithIcon(cache[i], cache, number)
    {
      var item := ProductWithIcon(cache[k], cache, number);
      enriched := enriched + [item];
      k := k + 1;
    }
  }

  /** One product of that loop: its image id, or its id when that is empty, gives its icon. */
  method ProductWithIcon(product: JsonObject, cache: seq<JsonObject>, number: real -> string) returns (item: JsonObject)
    ensures item == WithIcon(product, cache, number)
  {
    var imageId := VariantField(product, "imageId", number);
    if imageId == "" {
      imageId := VariantField(product, "id", number);
    }
    var icon := LookupIcon(imageId, cache, number);
    item := product["iconChar" := JString(icon)];
  }

  /** A product as the products list shows it: with its icon character. */
  function WithIcon(product: JsonObject, cache: seq<JsonObject>, number: real -> string): (r: JsonObject)
    ensures r.Keys == product.Keys + {"iconChar"}
    ensures r["iconChar"] == JString(ProductIcon(IconKey(product, number), cache, number))
    ensures forall k :: k in product && k != "iconChar" ==> r[k] == product[k]
  {
    product["iconChar" := JString(ProductIcon(IconKey(product, number), cache, number))]
  }

  /** The key a product's icon is looked up by: its image id, or its id when that is empty. */
  function IconKey(product: JsonObject, number: real -> string): string
  {
    if VariantField(product, "imageId", number) == "" then VariantField(product, "id", number) else VariantField(product, "imageId", number)
  }
}
