# Esri lookup of the geocoder library, in Dafny

This project models the Esri lookup of the Ruby geocoder library
(`Geocoder::Lookup::Esri`, backed by the ArcGIS World GeocodeServer) and
proves properties of the model:

- which endpoint a query is sent to (`geocodeAddresses` for a batch,
  `reverseGeocode` for coordinates, `find` for a text search);
- the request parameters the lookup builds, one assignment at a time, into
  an insertion-ordered Ruby `Hash`, with the framework's defaults merged over
  them;
- the cache key, which leaves out `:api_key` and `:token`;
- how the parsed answer is unwrapped into result records;
- how the access token is reused while active, and otherwise requested from
  the token service and stored in the lookup's configuration.

Files:

- `option.dfy` (module `Optional`): the `Option` type.
- `param_map.dfy` (module `ParamMap`): a Ruby `Hash` as an association
  list. `Put` is `hash[k] = v`, `Lookup` is `hash[k]`, `Without` is
  `reject`, `Merge` is `merge`. It also proves the lemmas the lookup needs:
  keys stay unique, key order, and filtering commutes with assignment and
  merge.
- `coordinate_text.dfy` (module `CoordinateText`): `reverse` and
  `join(',')` on the coordinates, and `Split`, which reads the text back.
- `esri.dfy` (module `Esri`): the lookup. It has two parts:
  - Pure specification functions: `Action`, `BaseQueryUrl`, `Results`,
    `TokenAfter`, `QueriedParams`, `AssignTail`, `OwnParams` and
    `QueryParams`. `ParamTable` is an independent reference table of what
    the lookup sends under each key.
  - Two classes. `Configuration` holds the lookup's configuration, whose
    token slot is updated in place. `EsriLookup` holds the methods `Token`,
    `QueryUrlParams`, `CacheKeyParams`, `CacheKey` and `QueryUrl`. Each
    method is proved against the specification functions.

The framework around the lookup enters as parameters:

- the protocol string;
- `defaults`, the framework's default parameters (`super`);
- `toQuery`, the query-string serialiser (`hash_to_query` and
  `url_query_string`);
- `tokenService`, the token service (`Geocoder::EsriToken.generate_token`).

The answer fetched from the service is also a parameter (`doc`). It is
`None` when nothing was fetched.

The ghost field `Configuration.tokenRequests` counts the calls made to the
token service. This lets the contracts say when a new token is requested.

## Model

| member | source | states |
|---|---|---|
| Esri.Action | lib/geocoder/lookups/esri.rb:18-23 | a batch goes to `geocodeAddresses`, a reverse query to `reverseGeocode`, any other query to `find`; each holds exactly when its query kind does |
| Esri.BaseQueryUrl | lib/geocoder/lookups/esri.rb:18-25 | the URL is the protocol, then the World GeocodeServer path, then the action, then a final `?` |
| Esri.BaseQueryUrlAction | lib/geocoder/lookups/esri.rb:18-25 | two queries get the same endpoint URL if and only if they go to the same action |
| Esri.Results | lib/geocoder/lookups/esri.rb:27-47 | no fetched document, or a non-nil `error`, gives no results; a non-reverse query without a non-empty `locations` gives none; a batch returns the `locations` array exactly when there is no error and it is non-empty; a single query returns the whole document as its one record exactly when there is no error and it is reverse or has locations |
| Esri.TokenAfter | lib/geocoder/lookups/esri.rb:92-99 | an active token is kept; the slot changes only to the newly issued token, and only when an API key is configured; the slot is empty afterwards exactly when it was empty and no API key is configured |
| Esri.TokenText | lib/geocoder/lookups/esri.rb:94 | the token's text when a token is configured, and nothing (`nil`) otherwise |
| Esri.TokenValue | lib/geocoder/lookups/esri.rb:86 | the value stored under `:token` is `nil` exactly when no token is configured, and otherwise the token's text |
| Esri.TokenReusedWhileActive | lib/geocoder/lookups/esri.rb:92-99 | once an active token is configured, a second `token` call asks for nothing and leaves the slot unchanged |
| Esri.ObjectId | lib/geocoder/lookups/esri.rb:70 | `item[:id] \|\| i`: the caller's id when it is truthy, otherwise the item's position; either way the id sent is truthy |
| Esri.AddressRecords | lib/geocoder/lookups/esri.rb:66-75 | one record per batch item, in item order; each record's `OBJECTID` is the item's id, or its position when it has none, and its `SingleLine` is the item's input |
| Esri.PutIfConfigured | lib/geocoder/lookups/esri.rb:87-88 | the key gets the configured value when that value is truthy; otherwise, and for every other key, the hash is unchanged |
| Esri.QueryParams | lib/geocoder/lookups/esri.rb:60-89 | plain definition: the lookup's own parameters with the defaults merged over them; its properties are stated by the `QueryParamsMatchTable`, `QueryParamsKeepOwnOrder`, `CacheKeyParamsMatchTable` and `CacheKeyIgnoresToken` rows, and `EsriLookup.QueryUrlParams` is proved equal to it |
| Esri.SingleQueriedAt | lib/geocoder/lookups/esri.rb:76-82 | before the token, a single query holds `f`, `outFields` and exactly one of `location` (reverse) and `text` (forward) |
| Esri.AssignTailAt | lib/geocoder/lookups/esri.rb:86-88 | the closing assignments set `:token` and the configured `forStorage` and `sourceCountry`, and leave every other key as it was |
| Esri.OwnParamsAt | lib/geocoder/lookups/esri.rb:60-88 | every key of the lookup's own parameters holds the reference table's entry |
| Esri.QueriedParamsUnique | lib/geocoder/lookups/esri.rb:61-84 | the parameters assigned before the token never repeat a key |
| Esri.AssignTailUnique | lib/geocoder/lookups/esri.rb:86-88 | the closing assignments keep every key unique |
| Esri.OwnParamsMatchTable | lib/geocoder/lookups/esri.rb:60-88 | the lookup's own parameters hold exactly the reference table's entries, each key once |
| Esri.QueryParamsMatchTable | lib/geocoder/lookups/esri.rb:60-89 | after the merge, every key the defaults name takes the default's value, every other key takes the table's entry, and no key repeats |
| Esri.SingleQuerySearchParam | lib/geocoder/lookups/esri.rb:76-82 | when the defaults name neither `location` nor `text`, a single query sends `location` if and only if it is reverse, and `text` if and only if it is forward; `text` is the sanitized text; for coordinates `[lat, lon]` the location is `"lon,lat"` |
| Esri.QueriedParamsKeys | lib/geocoder/lookups/esri.rb:61-84 | the keys assigned before the token, in order: `f`, then `addresses` for a batch; for a single query, `outFields`, the search key and, when configured, `forStorage` |
| Esri.AssignTailKeys | lib/geocoder/lookups/esri.rb:86-88 | the closing assignments append `token`, then `forStorage` when it is configured and not already present, then `sourceCountry` when configured |
| Esri.BatchKeyOrder | lib/geocoder/lookups/esri.rb:60-88 | a batch's own parameters, before the defaults are merged, are keyed in the order `f`, `addresses`, `token`, then the configured `forStorage` and `sourceCountry` |
| Esri.SingleKeyOrder | lib/geocoder/lookups/esri.rb:60-88 | a single query's own parameters, before the defaults are merged, are keyed in the order `f`, `outFields`, its search key, the configured `forStorage`, `token`, then the configured `sourceCountry` |
| Esri.QueryParamsKeepOwnOrder | lib/geocoder/lookups/esri.rb:89 | the merged parameters begin with the lookup's own keys in their order; keys only the defaults name come after them |
| Esri.RepeatedForStorageUnchanged | lib/geocoder/lookups/esri.rb:83-87 | for a single query, the second `forStorage` assignment finds the same value already present and changes nothing |
| Esri.CacheKeyParamsMatchTable | lib/geocoder/lookups/esri.rb:53-58 | the cache-key parameters hold neither `:api_key` nor `:token`; every other key holds what the merged query parameters hold; no key repeats; the remaining keys keep the merged parameters' order |
| Esri.CacheKeyIgnoresToken | lib/geocoder/lookups/esri.rb:53-58 | the cache-key parameters are the same whatever token is configured |
| Esri.AssignTailWithout | lib/geocoder/lookups/esri.rb:55-57 | leaving out `:api_key` and `:token` undoes the token assignment and keeps the configured `forStorage` and `sourceCountry` |
| Esri.EsriLookup.ValidTokenConfigured | lib/geocoder/lookups/esri.rb:97-99 | plain definition: a token is configured and it is active (`TokenActive` of the slot); the `EsriLookup.Token` and `TokenAfter` rows state what follows from it |
| Esri.EsriLookup.Token | lib/geocoder/lookups/esri.rb:92-95 | the slot becomes `TokenAfter` of the old slot; the token service is asked once exactly when no active token and an API key are configured, and never otherwise; the result is the text of the token then configured |
| Esri.EsriLookup.CreateToken | lib/geocoder/lookups/esri.rb:105-107 | the token service is asked once, with the configured API key |
| Esri.EsriLookup.SaveToken | lib/geocoder/lookups/esri.rb:109-111 | the configuration's token slot holds the given token |
| Esri.EsriLookup.CreateAndSaveToken | lib/geocoder/lookups/esri.rb:101-103 | the slot holds the token the service issues for the API key, and the service was asked once |
| Esri.EsriLookup.QueryUrlParams | lib/geocoder/lookups/esri.rb:60-90 | the assignments, run in the source's order, build `QueryParams` with the token `token` leaves configured; the token side effect is as in `Token` |
| Esri.EsriLookup.CacheKeyParams | lib/geocoder/lookups/esri.rb:53-58 | the result is the query parameters without `:api_key` and `:token`, for any value of the token |
| Esri.EsriLookup.CacheKey | lib/geocoder/lookups/esri.rb:49-51 | the key is the endpoint URL followed by the serialised token-free parameters |
| Esri.EsriLookup.QueryUrl | lib/geocoder/lookups/esri.rb:12-14 | the URL is the endpoint URL followed by the serialised query parameters, built with the token then configured |
| ParamMap.Lookup | lib/geocoder/lookups/esri.rb:60-89 | plain definition of `hash[k]` on the parameter hash: the value of the first entry with key `k`, or nothing; the `Put`, `Without` and `Merge` rows state how each operation changes it |
| ParamMap.Put | lib/geocoder/lookups/esri.rb:86 | after `hash[k] = v`, `k` maps to `v` and every other key is unchanged |
| ParamMap.PutKeys | lib/geocoder/lookups/esri.rb:86 | an assignment keeps the key order; a new key is appended at the end |
| ParamMap.PutSameValue | lib/geocoder/lookups/esri.rb:87 | assigning the value a key already holds leaves the hash unchanged |
| ParamMap.PutUnique | lib/geocoder/lookups/esri.rb:86 | an assignment keeps keys unique, and the keys afterwards are the old keys plus `k` |
| ParamMap.Without | lib/geocoder/lookups/esri.rb:55-57 | `reject` removes exactly the listed keys and keeps every other key's value |
| ParamMap.WithoutKeepsOrder | lib/geocoder/lookups/esri.rb:55-57 | `reject` keeps the remaining entries in their original order |
| ParamMap.WithoutUnique | lib/geocoder/lookups/esri.rb:55-57 | `reject` keeps keys unique; the remaining keys are the old ones outside the listed set |
| ParamMap.WithoutPutInside | lib/geocoder/lookups/esri.rb:55-57 | an assignment to a rejected key leaves no trace after `reject` |
| ParamMap.WithoutPutOutside | lib/geocoder/lookups/esri.rb:55-57 | an assignment to a kept key commutes with `reject` |
| ParamMap.Merge | lib/geocoder/lookups/esri.rb:89 | in `p.merge(q)`, every key of `q` takes `q`'s value, and every other key keeps `p`'s value |
| ParamMap.MergeUnique | lib/geocoder/lookups/esri.rb:89 | a merge keeps keys unique |
| ParamMap.MergeKeepsPositions | lib/geocoder/lookups/esri.rb:89 | a merge keeps the receiver's keys in their places; new keys come after them |
| ParamMap.WithoutMerge | lib/geocoder/lookups/esri.rb:55-57 | rejecting from a merge is the same as merging the two rejected hashes |
| CoordinateText.Reversed | lib/geocoder/lookups/esri.rb:79 | `reverse` keeps the length and puts element `i` at position `n - 1 - i` |
| CoordinateText.Join | lib/geocoder/lookups/esri.rb:79 | `join(',')`: the text starts with the first piece, and two pieces are joined as first, separator, second; `SplitJoin` states that splitting undoes it |
| CoordinateText.LocationText | lib/geocoder/lookups/esri.rb:79 | the location text of `[lat, lon]` is `"lon,lat"` |
| CoordinateText.SplitJoin | lib/geocoder/lookups/esri.rb:79 | splitting the comma-joined text at commas gives back the pieces, provided no piece holds a comma |
| CoordinateText.LatLonLocation | lib/geocoder/lookups/esri.rb:79 | the service can read both coordinates back from the location text |

## Left out

- Fetching the answer (`fetch_data`) and JSON parsing are left out. `Results` takes the parsed document, or `None`, as a parameter.
- The framework's `protocol`, its default parameters (`super`) and its query-string serialisers (`hash_to_query`, `url_query_string`) are parameters. The serialisers are not modelled.
- `Geocoder::EsriToken.generate_token` is the function parameter `tokenService`. The model does not split the API key array into its parts (`*configuration.api_key`).
- `tokenService` is a total function, so it returns the same token for the same API key. The real token request is a network call: it can raise, and it issues a fresh token each time. No proved property depends on this, because `TokenReusedWhileActive` and `CacheKeyIgnoresToken` hold for any tokens.
- `Geocoder.merge_into_lookup_config` is modelled as writing the token slot of one shared `Configuration` object. The rest of the global configuration is not modelled.
- Concurrency between lookups that share the configuration is not modelled.
- `Geocoder::Query`, `Geocoder::Batch` and `sanitized_text` are not part of this model. A query is one of three kinds, and a batch is taken never to be a reverse query.
- Coordinates are the strings Ruby's `to_s` prints. Floating-point formatting is not modelled.
- `Name` returns `"Esri"`. It has no contract.
- Esri.Results: a `locations` entry that is not a JSON array is treated as absent. The Ruby code would call `empty?` on whatever value is there.
- Esri.TokenAfter: whether a token is active is a stored flag. The expiry-time arithmetic of `EsriToken#active?` is not modelled.
- Esri.AddressRecords: the records are structured values. Their `to_json` text is not modelled.
- Esri.SingleQuerySearchParam: the location text is stated only for a pair of coordinates. `Join` covers any number of them.
