# QGIS server request, modelled in Dafny

This project models `QgsServerRequest`, the in-memory object that the QGIS map
server keeps for one incoming request. The object holds a current URL, the
original URL and a base URL, the HTTP method, a string-keyed header map, and a
parameter store derived from the current URL's query. It also has a fixed table
from well-known header roles (Host, Forwarded, X-Forwarded-*, X-Qgis-*-Service-Url)
to header names.

The invariant that matters is the link between the parameter store and the URL's
query. The model states it as `Request.Valid()`: the store is what loading the
current URL's query yields. Construction and `SetUrl` set up the invariant
directly. `SetParameter` and `RemoveParameter` keep it because of the round trip
`Load(UrlQuery(p)) == p`.

Files and modules:

- `url.dfy`, module `Url`: the URL value. It holds the part before the query as
  one string and the query as a list of decoded key/value items. It also defines
  the two query reads the request uses: whether an item exists, and the value of
  the first item with a given key.
- `key_order.dfy`, module `KeyOrder`: lexicographic order on strings. It is proved
  irreflexive, transitive and total.
- `server_parameters.dfy`, module `ServerParameters`: the parameter store. The real
  `QgsServerParameters` class is not part of this model, so the store is abstract.
  It is a list of items in strictly increasing key order. For keys in the Basic
  Multilingual Plane this is the order a Qt map iterates in. It supports add
  (insert or overwrite), remove, value lookup, flattening to a map, loading a
  query (later occurrences win), and serialising back to a query.
- `server_request.dfy`, module `ServerRequest`: the method enumeration and its
  name rule, the header-role table, and the class `Request`. The class has the
  source's fields, its setters as methods with `modifies this`, and its read-only
  accessors as functions. At the end of the file three client methods
  (`ExampleConstruct`, `ExampleEmptyValue`, `ExampleSetUrl`) use only the
  contracts and the function definitions. `ExampleConstruct` builds a request
  from `http://host/svc?MAP=a&LAYER=x` and overwrites `LAYER`.
  `ExampleEmptyValue` sets an empty value, which `Parameter` treats as absent and
  `QueryParameter` treats as present, then removes it twice.
  `ExampleSetUrl` replaces the URL and sets and removes a well-known header.

The plain getters `url()`, `originalUrl()`, `baseUrl()`, `method()` and `headers()`
are reads of the fields `url`, `originalUrl`, `baseUrl`, `requestMethod` and
`headers`. The field is called `requestMethod` because `method` is a Dafny keyword.
Every field is a value, so a read is a snapshot: changing what a caller got back
cannot change the request. `Request.Header(name)` returns the empty string for a
missing header, as Qt's map lookup does. `Request.KnownHeader(role)` looks up
`HeaderName(role)` through `Header` and reads nothing else.

The header table has ten roles (src/server/qgsserverrequest.cpp:37-46). Five of
them are service-URL roles: the generic `X-Qgis-Service-Url` and the WMS, WFS, WCS
and WMTS ones.

Neither construction nor `setUrl` has a failure path: the URL is stored as given.

## Model

| member | source | states |
|---|---|---|
| `Url.QueryItemValue` | src/server/qgsserverrequest.cpp:179 | the value returned belongs to the first query item with that key, and no earlier item has that key |
| `ServerParameters.ToMap` | src/server/qgsserverrequest.cpp:124-127 | flattening a list of items gives a map whose keys are exactly the keys of the items |
| `ServerParameters.Value` | src/server/qgsserverrequest.cpp:147 | the store's value for a key is the flattened map's value, or the empty string when the key is missing |
| `ServerParameters.Add` | src/server/qgsserverrequest.cpp:141 | adding keeps the store sorted, and its content becomes the old content with that key set to that value (insert or overwrite) |
| `ServerParameters.Remove` | src/server/qgsserverrequest.cpp:157 | removing keeps the store sorted, and its content becomes the old content minus that key and nothing else |
| `ServerParameters.SortedUnique` | src/server/qgsserverrequest.cpp:142 | two sorted stores with the same content are the same list of items, so the query a store serialises to depends only on its content |
| `ServerParameters.RemoveIdempotent` | src/server/qgsserverrequest.cpp:155-159 | removing a key a second time leaves the store as the first removal left it |
| `ServerParameters.LoadInto` | src/server/qgsserverrequest.cpp:164-165 | loading a query into a store keeps it sorted; the result holds the old content overridden by the query's items, with the last occurrence of a key winning |
| `ServerParameters.Load` | src/server/qgsserverrequest.cpp:48 | loading a query into an empty store gives a sorted store whose content is the query's items, with the last occurrence of a key winning |
| `ServerParameters.UrlQuery` | src/server/qgsserverrequest.cpp:142 | round trip: loading the query that a store serialises to gives back that store |
| `ServerParameters.UrlQueryItems` | src/server/qgsserverrequest.cpp:142 | the serialised query has an item for a key exactly when the store has that key, and the item's value is the stored value |
| `ServerRequest.RemoveAll` | src/server/qgsserverrequest.cpp:65 | removing every occurrence of a pattern never lengthens the string, and leaves a string without an occurrence unchanged |
| `ServerRequest.RemoveAllTrailing` | src/server/qgsserverrequest.cpp:65 | an enumerator key that ends in "Method" and has no earlier 'M' loses exactly that suffix |
| `ServerRequest.UpperChar` | src/server/qgsserverrequest.cpp:65 | the result is never an ASCII lower-case letter, and a character that is not one is kept |
| `ServerRequest.ToUpper` | src/server/qgsserverrequest.cpp:65 | upper-casing keeps the length and maps each character through the upper-case rule |
| `ServerRequest.EnumKey` | src/server/qgsserverrequest.cpp:64-65 | every enumerator key ends in "Method", and no 'M' comes before that suffix |
| `ServerRequest.MethodToString` | src/server/qgsserverrequest.cpp:62-66 | the strip-"Method"-and-upper-case rule names the six methods HEAD, PUT, GET, POST, DELETE and PATCH |
| `ServerRequest.ParseMethod` | src/server/qgsserverrequest.cpp:62-66 | any method the parser recognises in a name is the method whose name that is |
| `ServerRequest.MethodNameRoundTrip` | src/server/qgsserverrequest.cpp:62-66 | every method's name is upper case, and parsing the name gives back that method |
| `ServerRequest.MethodToStringInjective` | src/server/qgsserverrequest.cpp:62-66 | distinct methods have distinct names |
| `ServerRequest.HeaderName` | src/server/qgsserverrequest.cpp:37-46 | the fixed table: Host and Forwarded name exactly their own roles, and every other role names an X- extension header |
| `ServerRequest.HeaderNameInjective` | src/server/qgsserverrequest.cpp:37-46 | the table gives distinct names to distinct header roles |
| `ServerRequest.Request.constructor` | src/server/qgsserverrequest.cpp:29-49 | the current, original and base URLs are all the given URL; the method and headers are stored unchanged; the parameters are exactly what loading the URL's query yields |
| `ServerRequest.Request.Copy` | src/server/qgsserverrequest.cpp:51-60 | the copy has the same contents in every field and keeps the invariant |
| `ServerRequest.Request.Header` | src/server/qgsserverrequest.cpp:68-71 | the header's value when it is set, and the empty string when it is missing |
| `ServerRequest.Request.KnownHeader` | src/server/qgsserverrequest.cpp:74-77 | the lookup goes through the table: the value of the header named `HeaderName(role)`, or the empty string when that header is missing |
| `ServerRequest.Request.SetHeader` | src/server/qgsserverrequest.cpp:79-82 | the header then reads back as the new value (insert or overwrite); every other header, every role whose table name differs, and every other field are unchanged |
| `ServerRequest.Request.RemoveHeader` | src/server/qgsserverrequest.cpp:89-92 | only that header is deleted, after which it reads back as ""; every other header and field is unchanged |
| `ServerRequest.Request.SetOriginalUrl` | src/server/qgsserverrequest.cpp:104-107 | only the original URL changes |
| `ServerRequest.Request.SetBaseUrl` | src/server/qgsserverrequest.cpp:114-117 | only the base URL changes |
| `ServerRequest.Request.SetMethod` | src/server/qgsserverrequest.cpp:168-171 | only the method changes |
| `ServerRequest.Request.Parameters` | src/server/qgsserverrequest.cpp:124-127 | the flattened parameters equal the current URL's query read on its own, with the last occurrence of a key winning |
| `ServerRequest.Request.Data` | src/server/qgsserverrequest.cpp:134-137 | a plain request's body is always empty |
| `ServerRequest.Request.Parameter` | src/server/qgsserverrequest.cpp:145-153 | returns the stored value when it is present and non-empty, and the default otherwise (a missing key and an empty value are treated alike) |
| `ServerRequest.Request.QueryParameter` | src/server/qgsserverrequest.cpp:173-180 | returns the default only when the current URL's query has no item with that key; otherwise returns the first such item's value, even when it is empty |
| `ServerRequest.Request.SetParameter` | src/server/qgsserverrequest.cpp:139-143 | the store becomes the old one with the key added, and the URL's query becomes the serialised store; the invariant holds; `Parameter` then returns the value (or the default if the value is empty) and `QueryParameter` returns the value; the original URL, base URL, headers and method are unchanged |
| `ServerRequest.Request.RemoveParameter` | src/server/qgsserverrequest.cpp:155-159 | the key leaves the store and the URL's query, which becomes the serialised store; the invariant holds; both `Parameter` and `QueryParameter` then return the default; a second removal changes nothing; the original URL, base URL, headers and method are unchanged |
| `ServerRequest.Request.SetUrl` | src/server/qgsserverrequest.cpp:161-166 | the URL is replaced, and the parameters become exactly what loading the new query yields, with none of the old ones merged in; the original URL, base URL, headers and method are unchanged |

## Left out

- The string constructor (src/server/qgsserverrequest.cpp:24-27) is left out. It only parses the string with Qt's URL parser and then runs the URL constructor, and URL parsing is outside this model.
- `serverParameters()` (src/server/qgsserverrequest.cpp:129-132) has no member of its own. It returns the store, which here is the field `params`.
- Parsing and percent-decoding of URLs and queries are left out because they belong to Qt. The query is given as items that are already decoded. `Request.QueryParameter` therefore returns the item's value without decoding it again.
- `QgsServerParameters` is not part of this model, so its real behaviour is not modelled: upper-casing keys, typed parameters, and treating '+' as a space. The store is abstract. It has only insert-or-overwrite, remove, lookup, last-occurrence-wins loading, and serialisation in key order with the round trip.
- Enum reflection in `methodToString` is left out. `EnumKey` gives each enumerator's identifier instead. The enumeration is declared in a header that is not part of this model; the model uses the six methods Head, Put, Get, Post, Delete and Patch.
- `ServerRequest.ParseMethod` stands in for the method-name parser that the transport layer uses. That parser is not part of this model.
- `ServerParameters.UrlQuery`: orders keys by Unicode scalar value, as `KeyOrder.Less` does. Qt compares UTF-16 code units. So for keys with characters above U+FFFF, the serialised query order can differ from Qt's. Lookups and contents are not affected.
- `ServerRequest.ToUpper`: upper-cases ASCII letters only, while Qt's upper-casing covers all of Unicode. The enumerator keys it is applied to are ASCII.
- The header-role table is built per instance in the source (src/server/qgsserverrequest.cpp:37-46). Here it is the constant function `HeaderName`, because every instance holds the same table.
- Request bodies and subclasses that override `data()` are left out. Only the base class's empty body is modelled.
- The transport layer and threading are left out. The object is used by one request at a time.
