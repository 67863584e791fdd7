/**
 * The Esri (ArcGIS World GeocodeServer) lookup of the geocoder library:
 * which endpoint a query goes to, the request parameters it sends, the
 * cache key it files the answer under, how the answer is unwrapped into
 * results, and how the access token is obtained and kept in the lookup's
 * configuration.
 *
 * The framework around the lookup enters as parameters: the protocol, the
 * framework's own default parameters, the query-string serialiser and the
 * token service.
 */
module Esri {
  import opened Optional
  import opened ParamMap
  import opened CoordinateText

  // ---------------------------------------------------------------------
  // Values

  /** A Ruby value as it can appear among the request parameters. */
  datatype Value =
    | Nil
    | Bool(b: bool)
    | Int(i: int)
    | Str(s: string)
    | AddressList(records: seq<AddressRecord>)

  /** One `{attributes: {OBJECTID, SingleLine}}` record of a batch request. */
  datatype AddressRecord = AddressRecord(objectId: Value, singleLine: Value)

  /** Ruby truthiness: everything but `nil` and `false`. */
  predicate Truthy(v: Value)
  {
    !(v.Nil? || v == Bool(false))
  }

  /** A hash key: a Ruby symbol such as `:token`, or a string key. */
  datatype Key = Symbol(name: string) | StringKey(text: string)

  type Params = seq<(Key, Value)>

  const FormatKey: Key := Symbol("f")
  const AddressesKey: Key := Symbol("addresses")
  const OutFieldsKey: Key := Symbol("outFields")
  const LocationKey: Key := Symbol("location")
  const TextKey: Key := Symbol("text")
  const TokenKey: Key := Symbol("token")
  const ForStorageKey: Key := Symbol("forStorage")
  const SourceCountryKey: Key := Symbol("sourceCountry")
  const ApiKeyKey: Key := Symbol("api_key")

  /** The keys a cache key leaves out, because they vary among requests. */
  const VolatileKeys: set<Key> := {ApiKeyKey, TokenKey}

  // ---------------------------------------------------------------------
  // Queries

  /** One item of a batch: an optional caller id and the address line. */
  datatype BatchItem = BatchItem(id: Value, input: Value)

  datatype Query =
    | BatchQuery(items: seq<BatchItem>)
    | ReverseQuery(coordinates: seq<string>)
    | ForwardQuery(sanitizedText: string)

  /** `query.reverse_geocode?`; a batch holds address lines, so it is never reverse. */
  predicate IsReverseGeocode(q: Query)
  {
    q.ReverseQuery?
  }

  // ---------------------------------------------------------------------
  // Endpoint

  /** The GeocodeServer operation a query is sent to. */
  function Action(q: Query): (a: string)
    ensures a == "geocodeAddresses" <==> q.BatchQuery?
    ensures a == "reverseGeocode" <==> q.ReverseQuery?
    ensures a == "find" <==> q.ForwardQuery?
  {
    if q.BatchQuery? then "geocodeAddresses"
    else if IsReverseGeocode(q) then "reverseGeocode"
    else "find"
  }

  const ServicePath := "://geocode.arcgis.com/arcgis/rest/services/World/GeocodeServer/"

  /** `base_query_url`: the endpoint URL, ready for a query string. */
  function BaseQueryUrl(q: Query, protocol: string): (url: string)
    ensures |url| == |protocol| + |ServicePath| + |Action(q)| + 1
    ensures url[..|protocol|] == protocol
    ensures url[|protocol|..|protocol| + |ServicePath|] == ServicePath
    ensures url[|protocol| + |ServicePath|..|url| - 1] == Action(q)
    ensures url[|url| - 1] == '?'
  {
    protocol + ServicePath + Action(q) + "?"
  }

  /** Two queries share an endpoint exactly when they are sent to the same operation. */
  lemma BaseQueryUrlAction(q1: Query, q2: Query, protocol: string)
    ensures BaseQueryUrl(q1, protocol) == BaseQueryUrl(q2, protocol) <==> Action(q1) == Action(q2)
  {
    var u1, u2 := BaseQueryUrl(q1, protocol), BaseQueryUrl(q2, protocol);
    if u1 == u2 {
      assert Action(q1) == u1[|protocol| + |ServicePath|..|u1| - 1];
    }
  }

  // ---------------------------------------------------------------------
  // Results

  /** A parsed JSON value, as the service's answer holds them. */
  datatype Json =
    | JNull
    | JBool(b: bool)
    | JNumber(n: int)
    | JString(s: string)
    | JArray(elements: seq<Json>)
    | JObject(fields: map<string, Json>)

  /** The parsed answer of the service: a JSON object. */
  type Document = map<string, Json>

  /** `doc['error'].nil?` */
  predicate ErrorIsNil(doc: Document)
  {
    "error" !in doc || doc["error"] == JNull
  }

  /** `doc['locations']`, when it is an array. */
  function LocationsOf(doc: Document): Option<seq<Json>>
  {
    if "locations" in doc && doc["locations"].JArray? then Some(doc["locations"].elements)
    else None
  }

  /** `doc['locations'] && !doc['locations'].empty?` */
  predicate HasLocations(doc: Document)
  {
    LocationsOf(doc).Some? && LocationsOf(doc).value != []
  }

  /**
   * `results`: the records the lookup hands to the framework, given what
   * `fetch_data` produced (`None` when it produced nothing).
   */
  function Results(q: Query, doc: Option<Document>): (r: seq<Json>)
    ensures doc.None? ==> r == []
    ensures doc.Some? && !ErrorIsNil(doc.value) ==> r == []
    ensures doc.Some? && !IsReverseGeocode(q) && !HasLocations(doc.value) ==> r == []
    ensures q.BatchQuery? ==>
      (r != [] <==> doc.Some? && ErrorIsNil(doc.value) && HasLocations(doc.value))
    ensures q.BatchQuery? && r != [] ==> LocationsOf(doc.value) == Some(r)
    ensures !q.BatchQuery? ==> r == [] || (doc.Some? && r == [JObject(doc.value)])
    ensures !q.BatchQuery? ==>
      (r != [] <==> doc.Some? && ErrorIsNil(doc.value) && (IsReverseGeocode(q) || HasLocations(doc.value)))
  {
    if doc.None? then []
    else
      var d := doc.value;
      if !IsReverseGeocode(q) && !HasLocations(d) then []
      else if q.BatchQuery? then
        if ErrorIsNil(d) && HasLocations(d) then LocationsOf(d).value else []
      else if ErrorIsNil(d) then [JObject(d)]
      else []
  }

  // ---------------------------------------------------------------------
  // Token

  /** An access token of the service: its text and whether it is still active. */
  datatype EsriToken = EsriToken(text: string, active: bool)

  /** `valid_token_configured?` on the configured token slot. */
  predicate TokenActive(t: Option<EsriToken>)
  {
    t.Some? && t.value.active
  }

  /** The condition under which `token` asks the service for a new token. */
  predicate NeedsNewToken(t: Option<EsriToken>, apiKey: Value)
  {
    !TokenActive(t) && Truthy(apiKey)
  }

  /** The token slot after `token`, when the service would issue `issued`. */
  function TokenAfter(t: Option<EsriToken>, apiKey: Value, issued: EsriToken): (r: Option<EsriToken>)
    ensures TokenActive(t) ==> r == t
    ensures r != t ==> r == Some(issued) && Truthy(apiKey)
    ensures r.None? <==> t.None? && !Truthy(apiKey)
    ensures !TokenActive(t) && Truthy(apiKey) ==> r == Some(issued)
  {
    if NeedsNewToken(t, apiKey) then Some(issued) else t
  }

  /** `configuration[:token].to_s unless configuration[:token].nil?` */
  function TokenText(t: Option<EsriToken>): (s: Option<string>)
    ensures s.Some? <==> t.Some?
    ensures t.Some? ==> s.value == t.value.text
  {
    match t
    case None => None
    case Some(token) => Some(token.text)
  }

  /** The value `params[:token] = token` stores. */
  function TokenValue(t: Option<EsriToken>): (v: Value)
    ensures v == Nil <==> t.None?
    ensures t.Some? ==> v == Str(t.value.text)
  {
    match TokenText(t)
    case None => Nil
    case Some(s) => Str(s)
  }

  /**
   * Once `token` has left an active token in the slot, the next call
   * reuses it: it neither asks the service again nor changes the slot.
   */
  lemma TokenReusedWhileActive(t: Option<EsriToken>, apiKey: Value, first: EsriToken, second: EsriToken)
    requires TokenActive(TokenAfter(t, apiKey, first))
    ensures !NeedsNewToken(TokenAfter(t, apiKey, first), apiKey)
    ensures TokenAfter(TokenAfter(t, apiKey, first), apiKey, second) == TokenAfter(t, apiKey, first)
  {
  }

  // ---------------------------------------------------------------------
  // Request parameters

  /** `item[:id] || i`: the caller's id, or the item's position when it has none. */
  function ObjectId(item: BatchItem, position: nat): (id: Value)
    ensures Truthy(id)
    ensures Truthy(item.id) ==> id == item.id
    ensures !Truthy(item.id) ==> id == Int(position)
  {
    if Truthy(item.id) then item.id else Int(position)
  }

  /** `items.map.with_index(first)`: one address record per item, in item order. */
  function AddressRecords(items: seq<BatchItem>, first: nat): (r: seq<AddressRecord>)
    ensures |r| == |items|
    ensures forall i :: 0 <= i < |items| ==>
      r[i].objectId == ObjectId(items[i], first + i) && r[i].singleLine == items[i].input
  {
    if items == [] then []
    else [AddressRecord(ObjectId(items[0], first), items[0].input)] + AddressRecords(items[1..], first + 1)
  }

  /** `params[k] = v if v`: an assignment made only when the configured value is truthy. */
  function PutIfConfigured(p: Params, k: Key, v: Value): (r: Params)
    ensures Lookup(r, k) == if Truthy(v) then Some(v) else Lookup(p, k)
    ensures forall k' :: k' != k ==> Lookup(r, k') == Lookup(p, k')
  {
    if Truthy(v) then Put(p, k, v) else p
  }

  /** The parameter naming what a single query looks for. */
  function SearchParam(q: Query): (Key, Value)
    requires !q.BatchQuery?
  {
    if IsReverseGeocode(q) then (LocationKey, Str(Join(Reversed(q.coordinates), ',')))
    else (TextKey, Str(q.sanitizedText))
  }

  /**
   * The parameters assigned before the token: the response format, then
   * either the batch's address records or the output fields, the search
   * parameter and, when configured, `forStorage`.
   */
  function QueriedParams(q: Query, forStorage: Value): Params
  {
    var format := [(FormatKey, Str("pjson"))];
    if q.BatchQuery? then Put(format, AddressesKey, AddressList(AddressRecords(q.items, 0)))
    else
      var search := SearchParam(q);
      PutIfConfigured(Put(Put(format, OutFieldsKey, Str("*")), search.0, search.1), ForStorageKey, forStorage)
  }

  /**
   * The assignments made for every query after `p`: the token, then
   * `forStorage` (for a single query a second time, with the same value)
   * and `sourceCountry` when configured.
   */
  function AssignTail(p: Params, forStorage: Value, sourceCountry: Value, token: Value): Params
  {
    PutIfConfigured(PutIfConfigured(Put(p, TokenKey, token), ForStorageKey, forStorage), SourceCountryKey, sourceCountry)
  }

  /** The lookup's own parameters, assigned one by one into an ordered hash. */
  function OwnParams(q: Query, forStorage: Value, sourceCountry: Value, token: Value): Params
  {
    AssignTail(QueriedParams(q, forStorage), forStorage, sourceCountry, token)
  }

  /** `query_url_params`: the lookup's parameters with the framework's defaults merged over them. */
  function QueryParams(q: Query, forStorage: Value, sourceCountry: Value, token: Value, defaults: Params): Params
  {
    Merge(OwnParams(q, forStorage, sourceCountry, token), defaults)
  }

  /**
   * The service's parameter table: which value, if any, the lookup itself
   * sends under each key.
   */
  function ParamTable(q: Query, forStorage: Value, sourceCountry: Value, token: Value, k: Key): Option<Value>
  {
    if k == FormatKey then Some(Str("pjson"))
    else if k == TokenKey then Some(token)
    else if k == ForStorageKey then (if Truthy(forStorage) then Some(forStorage) else None)
    else if k == SourceCountryKey then (if Truthy(sourceCountry) then Some(sourceCountry) else None)
    else if k == AddressesKey then (if q.BatchQuery? then Some(AddressList(AddressRecords(q.items, 0))) else None)
    else if k == OutFieldsKey then (if q.BatchQuery? then None else Some(Str("*")))
    else if k == LocationKey then (if q.ReverseQuery? then Some(Str(Join(Reversed(q.coordinates), ','))) else None)
    else if k == TextKey then (if q.ForwardQuery? then Some(Str(q.sanitizedText)) else None)
    else None
  }

  /** Before the token, a single query holds the format, the output fields and its search parameter. */
  lemma SingleQueriedAt(q: Query, k: Key)
    requires !q.BatchQuery?
    ensures var search := SearchParam(q);
      Lookup(Put(Put([(FormatKey, Str("pjson"))], OutFieldsKey, Str("*")), search.0, search.1), k)
      == if k == FormatKey then Some(Str("pjson"))
         else if k == OutFieldsKey then Some(Str("*"))
         else if k == LocationKey then (if q.ReverseQuery? then Some(Str(Join(Reversed(q.coordinates), ','))) else None)
         else if k == TextKey then (if q.ForwardQuery? then Some(Str(q.sanitizedText)) else None)
         else None
  {
  }

  /** The tail's assignments override the token and the configured keys and leave the rest alone. */
  lemma AssignTailAt(p: Params, forStorage: Value, sourceCountry: Value, token: Value, k: Key)
    ensures Lookup(AssignTail(p, forStorage, sourceCountry, token), k)
         == if k == SourceCountryKey && Truthy(sourceCountry) then Some(sourceCountry)
            else if k == ForStorageKey && Truthy(forStorage) then Some(forStorage)
            else if k == TokenKey then Some(token)
            else Lookup(p, k)
  {
  }

  /** Each key of the lookup's own parameters holds the table's entry. */
  lemma OwnParamsAt(q: Query, forStorage: Value, sourceCountry: Value, token: Value, k: Key)
    ensures Lookup(OwnParams(q, forStorage, sourceCountry, token), k) == ParamTable(q, forStorage, sourceCountry, token, k)
  {
    if q.BatchQuery? {
      AssignTailAt(QueriedParams(q, forStorage), forStorage, sourceCountry, token, k);
    } else {
      var search := SearchParam(q);
      var searched := Put(Put([(FormatKey, Str("pjson"))], OutFieldsKey, Str("*")), search.0, search.1);
      SingleQueriedAt(q, k);
      AssignTailAt(PutIfConfigured(searched, ForStorageKey, forStorage), forStorage, sourceCountry, token, k);
    }
  }

  /** The parameters assigned before the token never repeat a key. */
  lemma QueriedParamsUnique(q: Query, forStorage: Value)
    ensures UniqueKeys(QueriedParams(q, forStorage))
  {
    var format: Params := [(FormatKey, Str("pjson"))];
    assert UniqueKeys(format);
    if q.BatchQuery? {
      PutUnique(format, AddressesKey, AddressList(AddressRecords(q.items, 0)));
    } else {
      var search := SearchParam(q);
      var p := Put(format, OutFieldsKey, Str("*"));
      PutUnique(format, OutFieldsKey, Str("*"));
      PutUnique(p, search.0, search.1);
      PutUnique(Put(p, search.0, search.1), ForStorageKey, forStorage);
    }
  }

  /** The tail's assignments keep every key unique. */
  lemma AssignTailUnique(p: Params, forStorage: Value, sourceCountry: Value, token: Value)
    requires UniqueKeys(p)
    ensures UniqueKeys(AssignTail(p, forStorage, sourceCountry, token))
  {
    PutUnique(p, TokenKey, token);
    var withToken := Put(p, TokenKey, token);
    PutUnique(withToken, ForStorageKey, forStorage);
    PutUnique(PutIfConfigured(withToken, ForStorageKey, forStorage), SourceCountryKey, sourceCountry);
  }

  /** The lookup's own parameters hold exactly the table's entries, each key once. */
  lemma OwnParamsMatchTable(q: Query, forStorage: Value, sourceCountry: Value, token: Value)
    ensures UniqueKeys(OwnParams(q, forStorage, sourceCountry, token))
    ensures forall k :: Lookup(OwnParams(q, forStorage, sourceCountry, token), k)
                        == ParamTable(q, forStorage, sourceCountry, token, k)
  {
    QueriedParamsUnique(q, forStorage);
    AssignTailUnique(QueriedParams(q, forStorage), forStorage, sourceCountry, token);
    forall k ensures Lookup(OwnParams(q, forStorage, sourceCountry, token), k)
                     == ParamTable(q, forStorage, sourceCountry, token, k) {
      OwnParamsAt(q, forStorage, sourceCountry, token, k);
    }
  }

  /**
   * `query_url_params` sends the parameter table, with the framework's
   * defaults taking over every key they name, and never repeats a key.
   */
  lemma QueryParamsMatchTable(q: Query, forStorage: Value, sourceCountry: Value, token: Value, defaults: Params)
    requires UniqueKeys(defaults)
    ensures UniqueKeys(QueryParams(q, forStorage, sourceCountry, token, defaults))
    ensures forall k :: Lookup(QueryParams(q, forStorage, sourceCountry, token, defaults), k)
                        == if k in Keys(defaults) then Lookup(defaults, k)
                           else ParamTable(q, forStorage, sourceCountry, token, k)
  {
    OwnParamsMatchTable(q, forStorage, sourceCountry, token);
    MergeUnique(OwnParams(q, forStorage, sourceCountry, token), defaults);
  }

  /**
   * A single query sends exactly one of `location` and `text`; for the
   * coordinates `[lat, lon]` the location reads `"lon,lat"`.
   */
  lemma SingleQuerySearchParam(q: Query, forStorage: Value, sourceCountry: Value, token: Value, defaults: Params)
    requires !q.BatchQuery? && UniqueKeys(defaults)
    requires LocationKey !in Keys(defaults) && TextKey !in Keys(defaults)
    ensures var p := QueryParams(q, forStorage, sourceCountry, token, defaults);
      && (Lookup(p, LocationKey).Some? <==> q.ReverseQuery?)
      && (Lookup(p, TextKey).Some? <==> q.ForwardQuery?)
      && (q.ForwardQuery? ==> Lookup(p, TextKey) == Some(Str(q.sanitizedText)))
      && (q.ReverseQuery? && |q.coordinates| == 2 ==>
            Lookup(p, LocationKey) == Some(Str(q.coordinates[1] + "," + q.coordinates[0])))
  {
    var p := QueryParams(q, forStorage, sourceCountry, token, defaults);
    QueryParamsMatchTable(q, forStorage, sourceCountry, token, defaults);
    assert Lookup(p, LocationKey) == ParamTable(q, forStorage, sourceCountry, token, LocationKey);
    assert Lookup(p, TextKey) == ParamTable(q, forStorage, sourceCountry, token, TextKey);
    SearchKeysInTable(q, forStorage, sourceCountry, token);
    if q.ReverseQuery? && |q.coordinates| == 2 {
      var c := q.coordinates;
      LocationText(c[0], c[1]);
      assert c == [c[0], c[1]];
    }
  }

  /** The table's entries for the two search keys. */
  lemma SearchKeysInTable(q: Query, forStorage: Value, sourceCountry: Value, token: Value)
    ensures ParamTable(q, forStorage, sourceCountry, token, LocationKey)
         == if q.ReverseQuery? then Some(Str(Join(Reversed(q.coordinates), ','))) else None
    ensures ParamTable(q, forStorage, sourceCountry, token, TextKey)
         == if q.ForwardQuery? then Some(Str(q.sanitizedText)) else None
  {
  }

  /** `[k]` when `v` is configured, no key otherwise. */
  function IfConfigured(v: Value, k: Key): seq<Key>
  {
    if Truthy(v) then [k] else []
  }

  /** The keys assigned before the token, in assignment order. */
  lemma QueriedParamsKeys(q: Query, forStorage: Value)
    ensures Keys(QueriedParams(q, forStorage))
         == if q.BatchQuery? then [FormatKey, AddressesKey]
            else [FormatKey, OutFieldsKey, SearchParam(q).0] + IfConfigured(forStorage, ForStorageKey)
  {
    var format: Params := [(FormatKey, Str("pjson"))];
    assert Keys(format) == [FormatKey];
    if q.BatchQuery? {
      PutKeys(format, AddressesKey, AddressList(AddressRecords(q.items, 0)));
    } else {
      var search := SearchParam(q);
      var fields := Put(format, OutFieldsKey, Str("*"));
      PutKeys(format, OutFieldsKey, Str("*"));
      assert Keys(fields) == [FormatKey, OutFieldsKey];
      var searched := Put(fields, search.0, search.1);
      PutKeys(fields, search.0, search.1);
      assert Keys(searched) == [FormatKey, OutFieldsKey, search.0];
      if Truthy(forStorage) {
        PutKeys(searched, ForStorageKey, forStorage);
      }
    }
  }

  /** The tail appends the token, then each configured key that is not there yet. */
  lemma AssignTailKeys(p: Params, forStorage: Value, sourceCountry: Value, token: Value)
    requires TokenKey !in Keys(p) && SourceCountryKey !in Keys(p)
    ensures Keys(AssignTail(p, forStorage, sourceCountry, token))
         == Keys(p) + [TokenKey]
            + (if ForStorageKey in Keys(p) then [] else IfConfigured(forStorage, ForStorageKey))
            + IfConfigured(sourceCountry, SourceCountryKey)
  {
    var withToken := Put(p, TokenKey, token);
    PutKeys(p, TokenKey, token);
    var tokenKeys := Keys(p) + [TokenKey];
    assert ForStorageKey in tokenKeys <==> ForStorageKey in Keys(p);
    var withStorage := PutIfConfigured(withToken, ForStorageKey, forStorage);
    var storageKeys := tokenKeys + (if ForStorageKey in Keys(p) then [] else IfConfigured(forStorage, ForStorageKey));
    if Truthy(forStorage) {
      PutKeys(withToken, ForStorageKey, forStorage);
    }
    assert Keys(withStorage) == storageKeys;
    assert SourceCountryKey !in storageKeys;
    if Truthy(sourceCountry) {
      PutKeys(withStorage, SourceCountryKey, sourceCountry);
    }
  }

  /** The key order of a batch's own hash, before the defaults are merged: `forStorage` follows the token. */
  lemma BatchKeyOrder(q: Query, forStorage: Value, sourceCountry: Value, token: Value)
    requires q.BatchQuery?
    ensures Keys(OwnParams(q, forStorage, sourceCountry, token))
         == [FormatKey, AddressesKey, TokenKey] + IfConfigured(forStorage, ForStorageKey)
            + IfConfigured(sourceCountry, SourceCountryKey)
  {
    var queried := QueriedParams(q, forStorage);
    QueriedParamsKeys(q, forStorage);
    assert Keys(queried) == [FormatKey, AddressesKey];
    AssignTailKeys(queried, forStorage, sourceCountry, token);
    assert Keys(queried) + [TokenKey] == [FormatKey, AddressesKey, TokenKey];
  }

  /** The key order of a single query's own hash, before the defaults are merged: `forStorage` precedes the token. */
  lemma SingleKeyOrder(q: Query, forStorage: Value, sourceCountry: Value, token: Value)
    requires !q.BatchQuery?
    ensures Keys(OwnParams(q, forStorage, sourceCountry, token))
         == [FormatKey, OutFieldsKey, SearchParam(q).0] + IfConfigured(forStorage, ForStorageKey)
            + [TokenKey] + IfConfigured(sourceCountry, SourceCountryKey)
  {
    var queried := QueriedParams(q, forStorage);
    QueriedParamsKeys(q, forStorage);
    var search := SearchParam(q).0;
    assert search == LocationKey || search == TextKey;
    var front := [FormatKey, OutFieldsKey, search];
    assert Keys(queried) == front + IfConfigured(forStorage, ForStorageKey);
    assert TokenKey !in Keys(queried) && SourceCountryKey !in Keys(queried);
    AssignTailKeys(queried, forStorage, sourceCountry, token);
    assert ForStorageKey !in front;
    assert (if ForStorageKey in Keys(queried) then [] else IfConfigured(forStorage, ForStorageKey)) == [];
  }

  /**
   * The merge with the defaults keeps the lookup's own keys in their order
   * at the front; keys only the defaults name come after them.
   */
  lemma QueryParamsKeepOwnOrder(q: Query, forStorage: Value, sourceCountry: Value, token: Value, defaults: Params)
    ensures Keys(OwnParams(q, forStorage, sourceCountry, token))
         <= Keys(QueryParams(q, forStorage, sourceCountry, token, defaults))
  {
    MergeKeepsPositions(OwnParams(q, forStorage, sourceCountry, token), defaults);
  }

  /**
   * For a single query the second `forStorage` assignment finds the value
   * already there and changes nothing.
   */
  lemma RepeatedForStorageUnchanged(q: Query, forStorage: Value, token: Value)
    requires !q.BatchQuery?
    ensures var withToken := Put(QueriedParams(q, forStorage), TokenKey, token);
      PutIfConfigured(withToken, ForStorageKey, forStorage) == withToken
  {
    var withToken := Put(QueriedParams(q, forStorage), TokenKey, token);
    if Truthy(forStorage) {
      assert Lookup(withToken, ForStorageKey) == Some(forStorage);
      PutSameValue(withToken, ForStorageKey, forStorage);
    }
  }

  /**
   * The cache key's parameters: the parameter table with the defaults
   * merged over it, and neither `:api_key` nor `:token`.
   */
  lemma CacheKeyParamsMatchTable(q: Query, forStorage: Value, sourceCountry: Value, token: Value, defaults: Params)
    requires UniqueKeys(defaults)
    ensures UniqueKeys(Without(QueryParams(q, forStorage, sourceCountry, token, defaults), VolatileKeys))
    ensures forall k :: Lookup(Without(QueryParams(q, forStorage, sourceCountry, token, defaults), VolatileKeys), k)
                        == if k in VolatileKeys then None
                           else if k in Keys(defaults) then Lookup(defaults, k)
                           else ParamTable(q, forStorage, sourceCountry, token, k)
    ensures Keys(Without(QueryParams(q, forStorage, sourceCountry, token, defaults), VolatileKeys))
         == KeysOutside(Keys(QueryParams(q, forStorage, sourceCountry, token, defaults)), VolatileKeys)
  {
    QueryParamsMatchTable(q, forStorage, sourceCountry, token, defaults);
    WithoutUnique(QueryParams(q, forStorage, sourceCountry, token, defaults), VolatileKeys);
    WithoutKeepsOrder(QueryParams(q, forStorage, sourceCountry, token, defaults), VolatileKeys);
  }

  /**
   * The cache key's parameters do not depend on the token: leaving out
   * `:api_key` and `:token` removes the only place the token is sent.
   */
  lemma CacheKeyIgnoresToken(q: Query, forStorage: Value, sourceCountry: Value, token1: Value, token2: Value, defaults: Params)
    ensures Without(QueryParams(q, forStorage, sourceCountry, token1, defaults), VolatileKeys)
         == Without(QueryParams(q, forStorage, sourceCountry, token2, defaults), VolatileKeys)
  {
    var queried := QueriedParams(q, forStorage);
    AssignTailWithout(queried, forStorage, sourceCountry, token1);
    AssignTailWithout(queried, forStorage, sourceCountry, token2);
    WithoutMerge(OwnParams(q, forStorage, sourceCountry, token1), defaults, VolatileKeys);
    WithoutMerge(OwnParams(q, forStorage, sourceCountry, token2), defaults, VolatileKeys);
  }

  /** Leaving out the volatile keys undoes the token's assignment and keeps the others. */
  lemma AssignTailWithout(p: Params, forStorage: Value, sourceCountry: Value, token: Value)
    ensures Without(AssignTail(p, forStorage, sourceCountry, token), VolatileKeys)
         == PutIfConfigured(PutIfConfigured(Without(p, VolatileKeys), ForStorageKey, forStorage),
                            SourceCountryKey, sourceCountry)
  {
    var withToken := Put(p, TokenKey, token);
    WithoutPutInside(p, TokenKey, token, VolatileKeys);
    if Truthy(forStorage) {
      WithoutPutOutside(withToken, ForStorageKey, forStorage, VolatileKeys);
    }
    if Truthy(sourceCountry) {
      WithoutPutOutside(PutIfConfigured(withToken, ForStorageKey, forStorage), SourceCountryKey, sourceCountry, VolatileKeys);
    }
  }

  // ---------------------------------------------------------------------
  // Configuration and the lookup

  /**
   * The lookup's entry in the process-wide configuration. Only the token
   * slot is ever written by the lookup; `tokenRequests` counts the calls
   * made to the token service.
   */
  class Configuration {
    const apiKey: Value
    const forStorage: Value
    const sourceCountry: Value
    var token: Option<EsriToken>
    ghost var tokenRequests: nat

    constructor (apiKey: Value, forStorage: Value, sourceCountry: Value, token: Option<EsriToken>)
      ensures this.apiKey == apiKey && this.forStorage == forStorage && this.sourceCountry == sourceCountry
      ensures this.token == token && tokenRequests == 0
    {
      this.apiKey := apiKey;
      this.forStorage := forStorage;
      this.sourceCountry := sourceCountry;
      this.token := token;
      tokenRequests := 0;
    }
  }

  /**
   * The Esri lookup. `tokenService` stands for the token service, which
   * issues a token for an API key; `defaults` for the framework's default
   * parameters; `toQuery` for the framework's query-string serialiser.
   */
  class EsriLookup {
    const configuration: Configuration

    constructor (configuration: Configuration)
      ensures this.configuration == configuration
    {
      this.configuration := configuration;
    }

    function Name(): string
    {
      "Esri"
    }

    /** `valid_token_configured?` */
    predicate ValidTokenConfigured()
      reads configuration
    {
      TokenActive(configuration.token)
    }

    /** `create_token`: one call to the token service with the configured API key. */
    method CreateToken(tokenService: Value -> EsriToken) returns (t: EsriToken)
      modifies configuration`tokenRequests
      ensures t == tokenService(configuration.apiKey)
      ensures configuration.tokenRequests == old(configuration.tokenRequests) + 1
    {
      t := tokenService(configuration.apiKey);
      configuration.tokenRequests := configuration.tokenRequests + 1;
    }

    /** `save_token!` */
    method SaveToken(t: EsriToken)
      modifies configuration`token
      ensures configuration.token == Some(t)
    {
      configuration.token := Some(t);
    }

    /** `create_and_save_token!` */
    method CreateAndSaveToken(tokenService: Value -> EsriToken)
      modifies configuration
      ensures configuration.token == Some(tokenService(configuration.apiKey))
      ensures configuration.tokenRequests == old(configuration.tokenRequests) + 1
    {
      var t := CreateToken(tokenService);
      SaveToken(t);
    }

    /**
     * `token`: asks the service for a new token exactly when no active
     * token is configured and an API key is, keeps it, and returns the
     * text of whatever token is then configured.
     */
    method Token(tokenService: Value -> EsriToken) returns (s: Option<string>)
      modifies configuration
      ensures configuration.token
              == TokenAfter(old(configuration.token), configuration.apiKey, tokenService(configuration.apiKey))
      ensures configuration.tokenRequests == old(configuration.tokenRequests)
              + if NeedsNewToken(old(configuration.token), configuration.apiKey) then 1 else 0
      ensures s == TokenText(configuration.token)
    {
      if !ValidTokenConfigured() && Truthy(configuration.apiKey) {
        CreateAndSaveToken(tokenService);
      }
      s := if configuration.token.None? then None else Some(configuration.token.value.text);
    }

    /** `query_url_params`: the parameters, assigned one by one into an ordered hash. */
    method QueryUrlParams(query: Query, defaults: Params, tokenService: Value -> EsriToken)
      returns (params: Params)
      modifies configuration
      ensures configuration.token
              == TokenAfter(old(configuration.token), configuration.apiKey, tokenService(configuration.apiKey))
      ensures configuration.tokenRequests == old(configuration.tokenRequests)
              + if NeedsNewToken(old(configuration.token), configuration.apiKey) then 1 else 0
      ensures params == QueryParams(query, configuration.forStorage, configuration.sourceCountry,
                                    TokenValue(configuration.token), defaults)
    {
      var forStorage, sourceCountry := configuration.forStorage, configuration.sourceCountry;
      params := [(FormatKey, Str("pjson"))];
      if query.BatchQuery? {
        params := Put(params, AddressesKey, AddressList(AddressRecords(query.items, 0)));
      } else {
        params := Put(params, OutFieldsKey, Str("*"));
        if IsReverseGeocode(query) {
          params := Put(params, LocationKey, Str(Join(Reversed(query.coordinates), ',')));
        } else {
          params := Put(params, TextKey, Str(query.sanitizedText));
        }
        if Truthy(forStorage) {
          params := Put(params, ForStorageKey, forStorage);
        }
      }
      var token := Token(tokenService);
      var tokenValue := if token.Some? then Str(token.value) else Nil;
      params := Put(params, TokenKey, tokenValue);
      if Truthy(forStorage) {
        params := Put(params, ForStorageKey, forStorage);
      }
      if Truthy(sourceCountry) {
        params := Put(params, SourceCountryKey, sourceCountry);
      }
      params := Merge(params, defaults);
    }

    /** `cache_key_params`: the parameters without `:api_key` and `:token`. */
    method CacheKeyParams(query: Query, defaults: Params, tokenService: Value -> EsriToken)
      returns (params: Params)
      modifies configuration
      ensures configuration.token
              == TokenAfter(old(configuration.token), configuration.apiKey, tokenService(configuration.apiKey))
      ensures configuration.tokenRequests == old(configuration.tokenRequests)
              + if NeedsNewToken(old(configuration.token), configuration.apiKey) then 1 else 0
      ensures forall t :: params == Without(QueryParams(query, configuration.forStorage,
                                                        configuration.sourceCountry, t, defaults), VolatileKeys)
    {
      var all := QueryUrlParams(query, defaults, tokenService);
      params := Without(all, VolatileKeys);
      forall t ensures params == Without(QueryParams(query, configuration.forStorage,
                                                     configuration.sourceCountry, t, defaults), VolatileKeys)
      {
        CacheKeyIgnoresToken(query, configuration.forStorage, configuration.sourceCountry,
                             TokenValue(configuration.token), t, defaults);
      }
    }

    /** `cache_key`: the endpoint and the token-free parameters; neither the token nor the API key enters it. */
    method CacheKey(query: Query, protocol: string, defaults: Params, tokenService: Value -> EsriToken,
                    toQuery: Params -> string)
      returns (key: string)
      modifies configuration
      ensures configuration.token
              == TokenAfter(old(configuration.token), configuration.apiKey, tokenService(configuration.apiKey))
      ensures configuration.tokenRequests == old(configuration.tokenRequests)
              + if NeedsNewToken(old(configuration.token), configuration.apiKey) then 1 else 0
      ensures key == BaseQueryUrl(query, protocol)
                     + toQuery(Without(QueryParams(query, configuration.forStorage, configuration.sourceCountry,
                                                   Nil, defaults), VolatileKeys))
    {
      var params := CacheKeyParams(query, defaults, tokenService);
      key := BaseQueryUrl(query, protocol) + toQuery(params);
    }

    /** `query_url`: the endpoint followed by the serialised parameters. */
    method QueryUrl(query: Query, protocol: string, defaults: Params, tokenService: Value -> EsriToken,
                    toQuery: Params -> string)
      returns (url: string)
      modifies configuration
      ensures configuration.token
              == TokenAfter(old(configuration.token), configuration.apiKey, tokenService(configuration.apiKey))
      ensures configuration.tokenRequests == old(configuration.tokenRequests)
              + if NeedsNewToken(old(configuration.token), configuration.apiKey) then 1 else 0
      ensures url == BaseQueryUrl(query, protocol)
                     + toQuery(QueryParams(query, configuration.forStorage, configuration.sourceCountry,
                                           TokenValue(configuration.token), defaults))
    {
      var params := QueryUrlParams(query, defaults, tokenService);
      url := BaseQueryUrl(query, protocol) + toQuery(params);
    }
  }
}
