# SendParcel client — a Dafny model

This project models `apih\SendParcel\Client`, the PHP client for the SendParcel (Pos Laju)
HTTP API. Every public method of the client posts one form request to the current base
URL followed by an action name. The action name comes from the PHP method's own name: an
underscore goes before each capital after the first character, then the whole name is
lower-cased. The posted fields are the caller's fields merged behind the stored API key.
The method returns one of three things:
- the raw body, in raw mode;
- the decoded JSON answer;
- null, after recording the failed exchange as the client's last error.

The project has three files:

- `action_name.dfy` (module `ActionName`) covers `snakeCase`. It models the
  `preg_replace('/(?<!^)([A-Z])/', '_$1', …)` scan as `InsertUnderscores`/`MarkFrom` and
  `strtolower` as `Lower`. Its lemmas prove what the action name looks like, idempotence, a
  round trip back to the method name (so distinct method names never share an action),
  and, through `MarksTo`, the concrete action names of the fifteen endpoints.
- `php_array.dfy` (modules `Optional` and `PhpArray`) covers PHP values and string-keyed
  arrays. An array is an insertion-ordered list of entries. `ArrayMerge` is `array_merge`
  on such arrays, and the lemmas prove its key precedence and key order.
- `client.dfy` (module `Client`) covers the client object and its wrappers.
  - Class `Client` has the fields `url`, `useSsl` and `lastError`, plus the key and secret,
    which never change. Its methods are the constructor, the setters, the getters,
    `CurlInit`, `LogError` and `CurlPostRequest`.
  - The fifteen public wrappers form one table, the datatype `Endpoint`. Each endpoint has
    a method name (`__FUNCTION__`), forwarded fields and a raw flag, and `Call` runs one
    endpoint through `CurlPostRequest`.
  - `RemoteAction` lists the API's action names, written out independently of
    `SnakeCase`.
  - Scenario methods build a client and state what it does on concrete inputs. One switches
    between the two environments with the setters and reads the URL back. The others fix a
    transport and a decoder, call an endpoint, and state the result and the last error.

The HTTP exchange and the JSON decoder are parameters of every request:
- `send` maps the request and the TLS settings in force to a status code and a body;
- `decode` maps a body to json_decode's value plus whether `json_last_error()` reported
  no error.

## Model

| member | source | states |
|---|---|---|
| ActionName.ToLower | src/Client.php:67 | strtolower on one character: a capital becomes its small letter, which upper-cases back to it; every other character is unchanged; the result is never a capital |
| ActionName.Lower | src/Client.php:67 | strtolower on a string: same length, each character lower-cased by ToLower |
| ActionName.InsertUnderscores | src/Client.php:67 | the preg_replace step: the first character is kept as is (the look-behind excludes position 0), and the length grows by one for each capital after index 0; every later character s[i] sits at i plus the number of capitals in s[1..i], and a capital there has an underscore right before it |
| ActionName.MarkPositions | src/Client.php:67 | the scan that marks every capital puts each character t[i] at i plus the number of capitals in t[0..i], right behind an underscore when it is a capital |
| ActionName.InsertUnderscoresDrops | src/Client.php:67 | the preg_replace step only inserts underscores: deleting every underscore from its result gives the input with its underscores deleted |
| ActionName.SnakeCase | src/Client.php:65-68 | the action name holds no capital; the empty name stays empty; otherwise its first character is the lower-cased first character of the name (a capital at index 0 gets no underscore), and its length is the name's length plus one for each capital after index 0 |
| ActionName.SnakeCaseDropsInserted | src/Client.php:65-68 | deleting every underscore from the action name gives the lower-cased name with its own underscores deleted: the replacement only inserts underscores |
| ActionName.SnakeCaseFixesLower | src/Client.php:65-68 | a name without capitals is its own action name |
| ActionName.SnakeCaseIdempotent | src/Client.php:65-68 | applying snakeCase to an action name changes nothing |
| ActionName.SnakeCaseRoundTrip | src/Client.php:65-68 | for a method name (no underscore, no leading capital), turning each "_x" of the action name back into "X" gives the method name back |
| ActionName.SnakeCaseInjective | src/Client.php:65-68 | two method names with the same action name are the same name |
| ActionName.UnderscoresSeparateWords | src/Client.php:67 | for a method name, the action name does not start with an underscore, and every underscore in it is followed by a small letter, so it neither ends in "_" nor holds "__", even for consecutive capitals |
| ActionName.MarksToCorrect | src/Client.php:67 | a character-by-character check that a string is the marked and lower-cased form of a name's tail implies that it is |
| ActionName.SnakeCaseOfPieces | src/Client.php:67 | the action name of a name written as two pieces follows from a check of each piece |
| PhpArray.Lookup | src/Client.php:93-95 | reading a key gives nothing exactly when the key is absent, and otherwise a value stored under that key |
| PhpArray.Without | src/Client.php:93-95 | removing a key keeps exactly the entries under other keys, in their original order (a subsequence), and changes nothing when the key is absent |
| PhpArray.ArrayMerge | src/Client.php:93-95 | array_merge for string keys: the result starts with the first array's keys, in their order; the entries after them are exactly the second array's entries whose key the first array lacks, in the second array's order (a subsequence); its lookups and key set are given by MergeLookup and MergeKeys |
| PhpArray.MergeLookup | src/Client.php:93-95 | array_merge precedence: a key of the second array reads the second array's value; any other key reads the first array's |
| PhpArray.MergeKeys | src/Client.php:93-95 | the key set of array_merge is the union of both arrays' keys |
| PhpArray.MergeSingle | src/Client.php:93-95 | merging a one-entry array [k => v] with b keeps k first, with b's value when b has k; b's other entries follow unchanged and in order |
| PhpArray.MergeUnique | src/Client.php:93-95 | merging two arrays with distinct keys gives an array with distinct keys |
| PhpArray.AppendUnique | src/Client.php:93-95 | joining two arrays with distinct keys and no key in common gives distinct keys |
| PhpArray.WithoutUnique | src/Client.php:93-95 | removing a key from an array with distinct keys leaves the keys distinct |
| PhpArray.ConsUnique | src/Client.php:93-95 | putting a new key in front of distinct keys keeps them distinct |
| Client.WithApiKey | src/Client.php:93-95 | the posted fields are "api_key" first, holding the caller's api_key if one was given and the stored key otherwise, followed by the caller's other fields in order; every other key reads the caller's value |
| Client.Outgoing | src/Client.php:90-95 | the request's URL is the base URL followed by snakeCase of the method name, an action name without capitals from which CamelCase reads back the method name when it has no underscore and no leading capital; the posted fields are exactly "api_key" first, holding the caller's api_key or the stored key, followed by the caller's other fields in their order |
| Client.WithApiKeyUnique | src/Client.php:93-95 | with distinct caller keys, the posted fields have distinct keys, "api_key" comes first, and every caller key is still posted |
| Client.Client.constructor | src/Client.php:12-23 | a new client keeps the given key and secret, targets the live URL, verifies TLS, and has no last error |
| Client.Client.UseDemo | src/Client.php:25-28 | useDemo(flag) sets the base URL to the demo URL when flag is true and to the live URL otherwise (default true), and leaves use_ssl and the last error alone |
| Client.Client.UseSsl | src/Client.php:30-33 | useSsl(flag) sets use_ssl to flag (default true) and leaves the URL and the last error alone |
| Client.Client.GetUrl | src/Client.php:35-38 | getUrl returns the current base URL, which is always the live or the demo URL |
| Client.Client.GetLastError | src/Client.php:40-43 | getLastError returns the current last-error record |
| Client.Client.LogError | src/Client.php:45-51 | logError makes the last error exactly the record of the function name, the request and the response |
| Client.Client.CurlInit | src/Client.php:70-86 | starting an exchange clears the last error; peer and host certificate checks are on exactly when use_ssl is true |
| Client.Client.CurlPostRequest | src/Client.php:88-123 | posts the merged fields to base URL + snakeCase(name), with TLS set from use_ssl. In raw mode it returns the body unchanged whatever the status and leaves no last error. Otherwise a status other than 200 or a failed decode returns null and records exactly (name, request, response); a 200 with a successful decode returns the decoded value and leaves no last error |
| Client.Client.Call | src/Client.php:125-198 | each public wrapper posts to base URL + its documented action name (RemoteAction), with the stored key merged into its forwarded fields; getConsignmentNote alone returns the raw body, and every other wrapper has the three decoded outcomes of CurlPostRequest |
| Client.Failed | src/Client.php:112 | the failure test of a decoded exchange: a status other than 200, or a body the decoder reports as not JSON; CurlPostRequest's contract splits its outcomes on it |
| Client.Arguments | src/Client.php:125-198 | the fields each wrapper forwards: checkPrice, createShipment, getConsignmentNote, checkPriceBulk and createBulkAwb pass the caller's array unchanged; every other wrapper builds at most one field of its own, never named "api_key" |
| Client.MethodName | src/Client.php:125-198 | every wrapper's method name has no underscore and does not start with a capital |
| Client.MeAction | src/Client.php:125-128 | snakeCase("me") is "me" |
| Client.GetPostcodeDetailsAction | src/Client.php:130-133 | snakeCase("getPostcodeDetails") is "get_postcode_details" |
| Client.CheckPriceAction | src/Client.php:135-138 | snakeCase("checkPrice") is "check_price" |
| Client.GetParcelSizesAction | src/Client.php:140-143 | snakeCase("getParcelSizes") is "get_parcel_sizes" |
| Client.GetContentTypesAction | src/Client.php:145-148 | snakeCase("getContentTypes") is "get_content_types" |
| Client.CreateShipmentAction | src/Client.php:150-153 | snakeCase("createShipment") is "create_shipment" |
| Client.GetCartItemsAction | src/Client.php:155-158 | snakeCase("getCartItems") is "get_cart_items" |
| Client.CheckoutAction | src/Client.php:160-163 | snakeCase("checkout") is "checkout" |
| Client.GetShipmentStatusesAction | src/Client.php:165-168 | snakeCase("getShipmentStatuses") is "get_shipment_statuses" |
| Client.GetShipmentsAction | src/Client.php:170-173 | snakeCase("getShipments") is "get_shipments" |
| Client.GetShipmentHistoryAction | src/Client.php:175-178 | snakeCase("getShipmentHistory") is "get_shipment_history" |
| Client.GetConsignmentNoteAction | src/Client.php:180-183 | snakeCase("getConsignmentNote") is "get_consignment_note" |
| Client.CheckPriceBulkAction | src/Client.php:185-188 | snakeCase("checkPriceBulk") is "check_price_bulk" |
| Client.CreateBulkAwbAction | src/Client.php:190-193 | snakeCase("createBulkAwb") is "create_bulk_awb" |
| Client.GetBulkTrackingNoAction | src/Client.php:195-198 | snakeCase("getBulkTrackingNo") is "get_bulk_tracking_no" |
| Client.EndpointAction | src/Client.php:125-198 | for every wrapper, the action derived from its method name is the documented action name |
| Client.EndpointActionsDistinct | src/Client.php:125-198 | two wrappers that post to the same action are the same method |
| Client.FixedFieldsKeepKey | src/Client.php:125-198 | wrappers that build their own fields (none, or one named field) post exactly the stored key followed by those fields |
| Client.PostcodeScenario | src/Client.php:130-133 | getPostcodeDetails answered with 200 and a JSON object returns the decoded object and leaves no last error |
| Client.NotFoundScenario | src/Client.php:125-128 | me() answered with 404 returns null; the last error names "me" and holds the live URL + "me", the key-only fields and the 404 response |
| Client.ConsignmentNoteScenario | src/Client.php:180-183 | on the demo server, getConsignmentNote returns the body as received for any status and body, and leaves no last error |
| Client.EnvironmentScenario | src/Client.php:25-38 | useDemo() then getUrl() gives the demo URL, useDemo(false) then getUrl() gives the live URL, and use_ssl stays true |
| Client.HistoryRequestParts | src/Client.php:175-178 | getShipmentHistory() without a page posts to get_shipment_history with the stored key followed by page 1 |
| Client.ShipmentHistoryScenario | src/Client.php:175-178 | getShipmentHistory() with TLS checks off on the demo server posts page 1 to DEMO_URL + "get_shipment_history"; a failed answer returns null and records that request and the response |

## Left out

- cURL handle setup, `CURLOPT_HEADER`, `CURLOPT_RETURNTRANSFER`, IPv4 resolution, `curl_close`
  and the exact TLS options (src/Client.php:74-78, 99-106) are foreign I/O. The model keeps only
  what reaches the transport: the URL, the merged fields, and whether peer and host
  certificates are checked.
- Client.Client.CurlPostRequest: a failed `curl_exec` returns `false` in PHP, which raw mode
  would return as is. In the model the transport always yields a string, so that failure
  shows up as status 0 and an empty body. Raw mode then returns `Str("")`, not `false`.
- `http_build_query` form encoding and its flattening of nested arrays. The model states
  the merged fields, not the wire bytes.
- The internals of `json_decode`. The decoder is a function parameter with a success flag.
  JSON numbers with a fraction have no `Value` constructor here, since floating point is out
  of scope.
- The `error_log` message and the `error_log` call in `logError` (src/Client.php:53-62) are a
  logging side effect. Only the `last_error` record is modelled.
- `api_secret` is stored by the constructor and never read, so it is a field and nothing more.
- PHP loose typing is not modelled. Flags are `bool`, so `use_ssl === false` is `!useSsl`.
  Payloads are string-keyed, so `array_merge`'s renumbering of integer keys does not arise.
  Caller arrays passed through (checkPrice and the others) are string-keyed arrays.
- ActionName.ToLower: strtolower is modelled as ASCII-only case mapping (its behaviour since
  PHP 8.2). Older locale-dependent lower-casing of non-ASCII bytes is not modelled.
  Strings are sequences of characters, not bytes.
- A raw-mode call clears any earlier last error. `curlInit` sets `last_error` to null
  (src/Client.php:72), and `curlPostRequest` calls it (src/Client.php:97) before the
  raw-mode return, so the model clears it on every request.
