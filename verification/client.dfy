/**
 * The SendParcel (Pos Laju) API client. Every public method posts one form
 * request to base URL + action name, with the stored API key merged into the
 * caller's fields, and returns the decoded JSON answer, or null after recording
 * the failed exchange as the client's last error.
 *
 * The HTTP transport and the JSON decoder are not part of this model: each
 * request takes them as function parameters, `send` (the cURL exchange, given
 * the request and the TLS settings in force) and `decode` (json_decode with
 * its success flag).
 */
module Client {
  import opened Optional
  import opened PhpArray
  import opened ActionName

  const DEMO_URL: string := "http://sendparcel-test.ap-southeast-1.elasticbeanstalk.com/apiv1/"
  const LIVE_URL: string := "https://sendparcel.poslaju.com.my/apiv1/"

  /** What the client posts: the target URL and the merged form fields. */
  datatype Request = Request(url: string, data: Assoc)

  /** What the transport hands back; a failed exchange reads as code 0 with an empty body. */
  datatype Response = Response(httpCode: int, body: string)

  /** Certificate checks asked of the transport. */
  datatype TlsSettings = TlsSettings(verifyPeer: bool, verifyHost: bool)

  /** json_decode's value together with whether json_last_error() was JSON_ERROR_NONE. */
  datatype Decoded = Decoded(ok: bool, value: Value)

  /** The last_error record: the calling method's name, what was sent, what came back. */
  datatype ErrorRecord = ErrorRecord(functionName: string, request: Request, response: Response)

  /** The form fields actually posted: the stored key under "api_key", then the caller's
      fields, a caller-supplied "api_key" taking precedence while keeping first place. */
  function WithApiKey(apiKey: string, data: Assoc): (r: Assoc)
    ensures r == [("api_key", Lookup(data, "api_key").GetOr(Str(apiKey)))] + Without(data, "api_key")
    ensures forall k :: k != "api_key" ==> Lookup(r, k) == Lookup(data, k)
  {
    MergeSingle("api_key", Str(apiKey), data);
    forall k | k != "api_key"
      ensures Lookup(ArrayMerge([("api_key", Str(apiKey))], data), k) == Lookup(data, k)
    {
      MergeLookup([("api_key", Str(apiKey))], data, k);
    }
    ArrayMerge([("api_key", Str(apiKey))], data)
  }

  /** The request a method named `name` sends with fields `data`: the URL is the base URL
      followed by an action name without capitals, from which a method name can be read
      back; "api_key" heads the posted fields, the caller's own key winning over the client's,
      and the caller's other fields follow in their order. */
  function Outgoing(baseUrl: string, apiKey: string, name: string, data: Assoc): (r: Request)
    ensures r.url == baseUrl + SnakeCase(name)
    ensures r.data == [("api_key", Lookup(data, "api_key").GetOr(Str(apiKey)))] + Without(data, "api_key")
    ensures |r.url| >= |baseUrl| && r.url[..|baseUrl|] == baseUrl
    ensures NoUpper(r.url[|baseUrl|..])
    ensures IsMethodName(name) ==> CamelCase(r.url[|baseUrl|..]) == name
    ensures r.data != [] && r.data[0] == ("api_key", Lookup(data, "api_key").GetOr(Str(apiKey)))
  {
    var action := SnakeCase(name);
    assert (baseUrl + action)[|baseUrl|..] == action;
    assert IsMethodName(name) ==> CamelCase(action) == name by {
      if IsMethodName(name) { SnakeCaseRoundTrip(name); }
    }
    Request(baseUrl + action, WithApiKey(apiKey, data))
  }

  /** The failure test of a decoded exchange: a status other than 200, or a body that is not JSON. */
  predicate Failed(response: Response, decode: string -> Decoded)
  {
    response.httpCode != 200 || !decode(response.body).ok
  }

  class Client {
    const apiKey: string
    /** Stored by the constructor and never used by any request. */
    const apiSecret: string
    var url: string
    var useSsl: bool
    var lastError: Option<ErrorRecord>

    /** The base URL is always one of the two environments. */
    predicate Valid()
      reads this
    {
      url == LIVE_URL || url == DEMO_URL
    }

    constructor (apiKey: string, apiSecret: string)
      ensures Valid()
      ensures this.apiKey == apiKey && this.apiSecret == apiSecret
      ensures url == LIVE_URL && useSsl && lastError == None
    {
      this.apiKey := apiKey;
      this.apiSecret := apiSecret;
      url := LIVE_URL;
      useSsl := true;
      lastError := None;
    }

    method UseDemo(flag: bool := true)
      modifies this`url
      ensures Valid()
      ensures url == (if flag then DEMO_URL else LIVE_URL)
      ensures useSsl == old(useSsl) && lastError == old(lastError)
    {
      url := if flag then DEMO_URL else LIVE_URL;
    }

    method UseSsl(flag: bool := true)
      modifies this`useSsl
      ensures useSsl == flag
      ensures url == old(url) && lastError == old(lastError)
    {
      useSsl := flag;
    }

    method GetUrl() returns (u: string)
      requires Valid()
      ensures u == LIVE_URL || u == DEMO_URL
      ensures u == url
    {
      u := url;
    }

    method GetLastError() returns (e: Option<ErrorRecord>)
      ensures e == lastError
    {
      e := lastError;
    }

    /** Starts an exchange: forgets the previous error and fixes the certificate checks,
        which are off exactly when use_ssl is false. */
    method CurlInit() returns (tls: TlsSettings)
      modifies this`lastError
      ensures lastError == None
      ensures tls.verifyPeer == useSsl && tls.verifyHost == useSsl
    {
      lastError := None;
      if !useSsl {
        tls := TlsSettings(false, false);
      } else {
        tls := TlsSettings(true, true);
      }
    }

    method LogError(name: string, request: Request, response: Response)
      modifies this`lastError
      ensures lastError == Some(ErrorRecord(name, request, response))
    {
      lastError := Some(ErrorRecord(name, request, response));
    }

    /** One exchange with the API on behalf of the method called `name`. */
    method CurlPostRequest(name: string, data: Assoc, rawMode: bool,
                           send: (Request, TlsSettings) -> Response, decode: string -> Decoded)
      returns (result: Value)
      requires Valid()
      modifies this`lastError
      ensures Valid()
      ensures var request := Outgoing(url, apiKey, name, data);
              var response := send(request, TlsSettings(useSsl, useSsl));
              && (rawMode ==> result == Str(response.body) && lastError == None)
              && (!rawMode && Failed(response, decode) ==>
                    result == Null && lastError == Some(ErrorRecord(name, request, response)))
              && (!rawMode && !Failed(response, decode) ==>
                    result == decode(response.body).value && lastError == None)
    {
      var action := SnakeCase(name);
      var target := url + action;
      var merged := WithApiKey(apiKey, data);
      var tls := CurlInit();
      var response := send(Request(target, merged), tls);
      if rawMode {
        return Str(response.body);
      }
      var decoded := decode(response.body);
      if response.httpCode != 200 || !decoded.ok {
        LogError(name, Request(target, merged), response);
        return Null;
      }
      return decoded.value;
    }

    /** The public endpoint method for `e`. */
    method Call(e: Endpoint, send: (Request, TlsSettings) -> Response, decode: string -> Decoded)
      returns (result: Value)
      requires Valid()
      modifies this`lastError
      ensures Valid()
      ensures var request := Request(url + RemoteAction(e), WithApiKey(apiKey, Arguments(e)));
              var response := send(request, TlsSettings(useSsl, useSsl));
              && (e.GetConsignmentNote? ==> result == Str(response.body) && lastError == None)
              && (!e.GetConsignmentNote? && Failed(response, decode) ==>
                    result == Null && lastError == Some(ErrorRecord(MethodName(e), request, response)))
              && (!e.GetConsignmentNote? && !Failed(response, decode) ==>
                    result == decode(response.body).value && lastError == None)
    {
      EndpointAction(e);
      result := CurlPostRequest(MethodName(e), Arguments(e), ReturnsRaw(e), send, decode);
    }
  }

  /** The fifteen public endpoint methods, with the arguments each takes. */
  datatype Endpoint =
    | Me
    | GetPostcodeDetails(postcode: Value)
    | CheckPrice(data: Assoc)
    | GetParcelSizes
    | GetContentTypes
    | CreateShipment(data: Assoc)
    | GetCartItems
    | Checkout(shipmentKeys: Value)
    | GetShipmentStatuses
    | GetShipments(shipmentKeys: Value)
    | GetShipmentHistory(page: Value := DEFAULT_PAGE)
    | GetConsignmentNote(data: Assoc)
    | CheckPriceBulk(data: Assoc)
    | CreateBulkAwb(data: Assoc)
    | GetBulkTrackingNo(integrationOrderId: Value)

  /** getShipmentHistory's page when the caller gives none. */
  const DEFAULT_PAGE: Value := Int(1)

  /** The PHP method name (__FUNCTION__) each endpoint passes to the request routine. */
  function MethodName(e: Endpoint): (name: string)
    ensures IsMethodName(name)
  {
    match e
    case Me => "me"
    case GetPostcodeDetails(_) => "getPostcodeDetails"
    case CheckPrice(_) => "checkPrice"
    case GetParcelSizes => "getParcelSizes"
    case GetContentTypes => "getContentTypes"
    case CreateShipment(_) => "createShipment"
    case GetCartItems => "getCartItems"
    case Checkout(_) => "checkout"
    case GetShipmentStatuses => "getShipmentStatuses"
    case GetShipments(_) => "getShipments"
    case GetShipmentHistory(_) => "getShipmentHistory"
    case GetConsignmentNote(_) => "getConsignmentNote"
    case CheckPriceBulk(_) => "checkPriceBulk"
    case CreateBulkAwb(_) => "createBulkAwb"
    case GetBulkTrackingNo(_) => "getBulkTrackingNo"
  }

  /** The wrappers that forward the caller's whole array. */
  predicate Passthrough(e: Endpoint)
  {
    e.CheckPrice? || e.CreateShipment? || e.GetConsignmentNote? || e.CheckPriceBulk? || e.CreateBulkAwb?
  }

  /** The fields each endpoint forwards: the caller's array as given, or at most one field of
      its own, never named "api_key". */
  function Arguments(e: Endpoint): (r: Assoc)
    ensures Passthrough(e) ==> r == e.data
    ensures !Passthrough(e) ==> |r| <= 1 && "api_key" !in Keys(r) && UniqueKeys(r)
  {
    match e
    case Me => []
    case GetPostcodeDetails(postcode) => [("postcode", postcode)]
    case CheckPrice(data) => data
    case GetParcelSizes => []
    case GetContentTypes => []
    case CreateShipment(data) => data
    case GetCartItems => []
    case Checkout(keys) => [("shipment_keys", keys)]
    case GetShipmentStatuses => []
    case GetShipments(keys) => [("shipment_keys", keys)]
    case GetShipmentHistory(page) => [("page", page)]
    case GetConsignmentNote(data) => data
    case CheckPriceBulk(data) => data
    case CreateBulkAwb(data) => data
    case GetBulkTrackingNo(id) => [("integration_order_id", id)]
  }

  /** Whether the endpoint asks for the raw body instead of decoded JSON. */
  function ReturnsRaw(e: Endpoint): (raw: bool)
    ensures raw <==> e.GetConsignmentNote?
  {
    match e
    case GetConsignmentNote(_) => true
    case _ => false
  }

  /** The remote action names of the SendParcel API, written out. */
  function RemoteAction(e: Endpoint): string
  {
    match e
    case Me => "me"
    case GetPostcodeDetails(_) => "get_postcode_details"
    case CheckPrice(_) => "check_price"
    case GetParcelSizes => "get_parcel_sizes"
    case GetContentTypes => "get_content_types"
    case CreateShipment(_) => "create_shipment"
    case GetCartItems => "get_cart_items"
    case Checkout(_) => "checkout"
    case GetShipmentStatuses => "get_shipment_statuses"
    case GetShipments(_) => "get_shipments"
    case GetShipmentHistory(_) => "get_shipment_history"
    case GetConsignmentNote(_) => "get_consignment_note"
    case CheckPriceBulk(_) => "check_price_bulk"
    case CreateBulkAwb(_) => "create_bulk_awb"
    case GetBulkTrackingNo(_) => "get_bulk_tracking_no"
  }

  // The action name of each method name, one written-out name at a time.

  lemma MeAction()
    ensures SnakeCase("me") == "me"
  {
    SnakeCaseOfPieces("me", "me", "", "me", "me", "", 16);
  }

  lemma GetPostcodeDetailsAction()
    ensures SnakeCase("getPostcodeDetails") == "get_postcode_details"
  {
    SnakeCaseOfPieces("getPostcodeDetails", "getPostcode", "Details", "get_postcode_details", "get_postcode", "_details", 16);
  }

  lemma CheckPriceAction()
    ensures SnakeCase("checkPrice") == "check_price"
  {
    SnakeCaseOfPieces("checkPrice", "checkPrice", "", "check_price", "check_price", "", 16);
  }

  lemma GetParcelSizesAction()
    ensures SnakeCase("getParcelSizes") == "get_parcel_sizes"
  {
    SnakeCaseOfPieces("getParcelSizes", "getParcel", "Sizes", "get_parcel_sizes", "get_parcel", "_sizes", 16);
  }

  lemma GetContentTypesAction()
    ensures SnakeCase("getContentTypes") == "get_content_types"
  {
    SnakeCaseOfPieces("getContentTypes", "getContent", "Types", "get_content_types", "get_content", "_types", 16);
  }

  lemma CreateShipmentAction()
    ensures SnakeCase("createShipment") == "create_shipment"
  {
    SnakeCaseOfPieces("createShipment", "create", "Shipment", "create_shipment", "create", "_shipment", 16);
  }

  lemma GetCartItemsAction()
    ensures SnakeCase("getCartItems") == "get_cart_items"
  {
    SnakeCaseOfPieces("getCartItems", "getCart", "Items", "get_cart_items", "get_cart", "_items", 16);
  }

  lemma CheckoutAction()
    ensures SnakeCase("checkout") == "checkout"
  {
    SnakeCaseOfPieces("checkout", "checkout", "", "checkout", "checkout", "", 16);
  }

  lemma GetShipmentStatusesAction()
    ensures SnakeCase("getShipmentStatuses") == "get_shipment_statuses"
  {
    SnakeCaseOfPieces("getShipmentStatuses", "getShipment", "Statuses", "get_shipment_statuses", "get_shipment", "_statuses", 16);
  }

  lemma GetShipmentsAction()
    ensures SnakeCase("getShipments") == "get_shipments"
  {
    SnakeCaseOfPieces("getShipments", "get", "Shipments", "get_shipments", "get", "_shipments", 16);
  }

  lemma GetShipmentHistoryAction()
    ensures SnakeCase("getShipmentHistory") == "get_shipment_history"
  {
    SnakeCaseOfPieces("getShipmentHistory", "getShipment", "History", "get_shipment_history", "get_shipment", "_history", 16);
  }

  lemma GetConsignmentNoteAction()
    ensures SnakeCase("getConsignmentNote") == "get_consignment_note"
  {
    SnakeCaseOfPieces("getConsignmentNote", "getConsign", "mentNote", "get_consignment_note", "get_consign", "ment_note", 16);
  }

  lemma CheckPriceBulkAction()
    ensures SnakeCase("checkPriceBulk") == "check_price_bulk"
  {
    SnakeCaseOfPieces("checkPriceBulk", "checkPrice", "Bulk", "check_price_bulk", "check_price", "_bulk", 16);
  }

  lemma CreateBulkAwbAction()
    ensures SnakeCase("createBulkAwb") == "create_bulk_awb"
  {
    SnakeCaseOfPieces("createBulkAwb", "createBulk", "Awb", "create_bulk_awb", "create_bulk", "_awb", 16);
  }

  lemma GetBulkTrackingNoAction()
    ensures SnakeCase("getBulkTrackingNo") == "get_bulk_tracking_no"
  {
    SnakeCaseOfPieces("getBulkTrackingNo", "getBulk", "TrackingNo", "get_bulk_tracking_no", "get_bulk", "_tracking_no", 16);
  }

  /** Deriving the action from the method name hits the documented endpoint for every method. */
  lemma EndpointAction(e: Endpoint)
    ensures SnakeCase(MethodName(e)) == RemoteAction(e)
  {
    match e
    case Me => MeAction();
    case GetPostcodeDetails(_) => GetPostcodeDetailsAction();
    case CheckPrice(_) => CheckPriceAction();
    case GetParcelSizes => GetParcelSizesAction();
    case GetContentTypes => GetContentTypesAction();
    case CreateShipment(_) => CreateShipmentAction();
    case GetCartItems => GetCartItemsAction();
    case Checkout(_) => CheckoutAction();
    case GetShipmentStatuses => GetShipmentStatusesAction();
    case GetShipments(_) => GetShipmentsAction();
    case GetShipmentHistory(_) => GetShipmentHistoryAction();
    case GetConsignmentNote(_) => GetConsignmentNoteAction();
    case CheckPriceBulk(_) => CheckPriceBulkAction();
    case CreateBulkAwb(_) => CreateBulkAwbAction();
    case GetBulkTrackingNo(_) => GetBulkTrackingNoAction();
  }

  /** With distinct caller keys the posted fields have distinct keys too, "api_key" first,
      and every caller key is still posted. */
  lemma WithApiKeyUnique(apiKey: string, data: Assoc)
    requires UniqueKeys(data)
    ensures var r := WithApiKey(apiKey, data);
            && UniqueKeys(r) && r[0].0 == "api_key"
            && forall k :: k in Keys(data) ==> k in Keys(r)
  {
    var r := WithApiKey(apiKey, data);
    WithoutUnique(data, "api_key");
    ConsUnique("api_key", Lookup(data, "api_key").GetOr(Str(apiKey)), Without(data, "api_key"));
    forall k | k in Keys(data)
      ensures k in Keys(r)
    {
      if k != "api_key" {
        assert Lookup(r, k) == Lookup(data, k);
      } else {
        assert Keys(r)[0] == k;
      }
    }
  }

  /** No two endpoints post to the same action. */
  lemma EndpointActionsDistinct(e1: Endpoint, e2: Endpoint)
    requires RemoteAction(e1) == RemoteAction(e2)
    ensures MethodName(e1) == MethodName(e2)
  {
    EndpointAction(e1);
    EndpointAction(e2);
    SnakeCaseInjective(MethodName(e1), MethodName(e2));
  }

  /** Endpoints with one named argument never override the stored key: the posted fields are
      exactly the key followed by that argument. */
  lemma FixedFieldsKeepKey(apiKey: string, e: Endpoint)
    requires !Passthrough(e)
    ensures WithApiKey(apiKey, Arguments(e)) == [("api_key", Str(apiKey))] + Arguments(e)
  {
    var args := Arguments(e);
    if args != [] {
      assert args[0].0 == Keys(args)[0];
      assert args[1..] == [];
      assert Lookup(args, "api_key") == Lookup(args[1..], "api_key") == None;
      assert Without(args, "api_key") == [args[0]] + Without(args[1..], "api_key") == args;
    }
  }

  /** Scenario: a client for ("k1", "s1") asks for the details of postcode "50000" and the
      server answers 200 with {"state":"WP"}. */
  method PostcodeScenario() returns (result: Value, error: Option<ErrorRecord>)
    ensures result == Dict([("state", Str("WP"))])
    ensures error == None
  {
    var c := new Client("k1", "s1");
    var body := "{\"state\":\"WP\"}";
    var send := (request: Request, tls: TlsSettings) => Response(200, body);
    var decode := (s: string) =>
      if s == body then Decoded(true, Dict([("state", Str("WP"))])) else Decoded(false, Null);
    result := c.Call(GetPostcodeDetails(Str("50000")), send, decode);
    error := c.GetLastError();
  }

  /** Scenario: the same client calls me() and the server answers 404 "Not Found". */
  method NotFoundScenario() returns (result: Value, error: Option<ErrorRecord>)
    ensures result == Null
    ensures error.Some? && error.value.functionName == "me"
    ensures error.value.response == Response(404, "Not Found")
    ensures error.value.request == Request(LIVE_URL + "me", [("api_key", Str("k1"))])
  {
    var c := new Client("k1", "s1");
    var send := (request: Request, tls: TlsSettings) => Response(404, "Not Found");
    var decode := (s: string) => Decoded(false, Null);
    result := c.Call(Me, send, decode);
    error := c.GetLastError();
  }

  /** Scenario: getConsignmentNote against the demo server returns the body as it came,
      even for a failing status, and records no error. */
  method ConsignmentNoteScenario(code: int, body: string) returns (result: Value, error: Option<ErrorRecord>)
    ensures result == Str(body)
    ensures error == None
  {
    var c := new Client("k1", "s1");
    c.UseDemo();
    var send := (request: Request, tls: TlsSettings) => Response(code, body);
    var decode := (s: string) => Decoded(false, Null);
    result := c.Call(GetConsignmentNote([("shipment_key", Str("SK1"))]), send, decode);
    error := c.GetLastError();
  }

  /** Scenario: useDemo() then getUrl() gives the demo URL, useDemo(false) the live one again,
      and neither touches use_ssl. */
  method EnvironmentScenario() returns (demo: string, live: string, ssl: bool)
    ensures demo == DEMO_URL && live == LIVE_URL && ssl
  {
    var c := new Client("k1", "s1");
    c.UseDemo();
    demo := c.GetUrl();
    c.UseDemo(false);
    live := c.GetUrl();
    ssl := c.useSsl;
  }

  /** getShipmentHistory() with no page asks for page 1 at get_shipment_history. */
  lemma HistoryRequestParts()
    ensures RemoteAction(GetShipmentHistory()) == "get_shipment_history"
    ensures WithApiKey("k1", Arguments(GetShipmentHistory())) == [("api_key", Str("k1")), ("page", Int(1))]
  {
    FixedFieldsKeepKey("k1", GetShipmentHistory());
  }

  /** Scenario: against the demo server with certificate checks off, getShipmentHistory()
      asks for page 1; a transport stub that answers 500 when certificate checks are off
      fails the call, and the record holds the exact request. */
  method ShipmentHistoryScenario() returns (result: Value, error: Option<ErrorRecord>)
    ensures result == Null
    ensures error.Some? && error.value.functionName == "getShipmentHistory"
    ensures error.value.response == Response(500, "")
    ensures error.value.request.url == DEMO_URL + "get_shipment_history"
    ensures error.value.request.data == [("api_key", Str("k1")), ("page", Int(1))]
  {
    var c := new Client("k1", "s1");
    c.UseDemo();
    c.UseSsl(false);
    var send := (request: Request, tls: TlsSettings) =>
      if tls.verifyPeer then Response(200, "[]") else Response(500, "");
    var decode := (s: string) => Decoded(s == "[]", List([]));
    HistoryRequestParts();
    result := c.Call(GetShipmentHistory(), send, decode);
    error := c.GetLastError();
  }
}
