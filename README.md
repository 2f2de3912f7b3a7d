# Creational patterns: cache singleton, HTTP request builder, payment factory

This project models three creational-pattern components from the Design-Patterns repository. Each one is written three times, in Java, C++ and Python, and each version has its own Dafny module:

- **CacheManager**, a singleton holding a string-keyed in-memory cache (`SingletonJava`, `SingletonCpp`, `SingletonPython`).
  - Each cache is a class with `put`, `get`, `clear`, `size` and a text rendering.
  - A separate class holds the static instance slot, so that "every call returns the same instance" can be stated.
  - Java and C++ keep a hash map (`map` in Dafny). Python keeps an insertion-ordered dict (`OrderedDict`, a sequence of pairs with distinct keys).
- **HttpRequest.Builder**, a fluent builder of HTTP requests with headers, query parameters and an optional body (`BuilderJava`, `BuilderCpp`, `BuilderPython`).
  - Java and Python builders hand their own map objects to the request, so a later `addHeader` on the builder is visible through the request.
  - The C++ `build` copies its `std::map`s into a value, which Dafny keeps as a sorted association list (`SortedMap`).
  - The text rendering is shared (`RequestFormat`). It states where the query string, the "Headers:" block and the "Body:" block appear, and when each is present.
- **PaymentFactory.createPayment**, which maps a mode string to one of four payment kinds or to nothing (`FactoryJava`, `FactoryCpp`, `FactoryPython`).
  - Java compares ignoring case, C++ compares exactly, and Python lower-cases first.
  - The model proves that each kind is chosen exactly for the strings matching its tag, that the Java and Python factories agree on every mode under the ASCII-only case folding modelled here, and that C++ rejects the mixed-case spellings the Java demonstration uses.

Exceptions are returned values: a `Result` or `Outcome` whose failure names the exception and its message (`IllegalArgumentException`, `std::invalid_argument`, `ValueError`). Java `null` and Python `None` arguments are written as `Option`.

Java's `HashMap` and C++'s `std::unordered_map` iterate in an unspecified order. Their renderings are stated for an arbitrary enumeration of the keys (`HashIteration.IterationOrder`), returned as a ghost output. Lemmas then show that the lines are exactly the entries, one per key.

The singleton and builder `main` demonstrations are replayed as scenario methods. Each one's `ensures` states the state the demonstration's calls leave behind: the cache sizes after the puts, the value `get` returns, that both references are one instance, the listing after `clear`, and the fields of the built requests. The printed text is stated only where it does not depend on hash order (the simple GET request in all three versions, the complex POST request in C++, whose `std::map`s fix the order, and in Python, the first Python listing and the empty listings).

The C++ `get` returns an empty string for a key that is missing. The model follows that code, so a miss looks exactly like a stored empty value (`SingletonCpp.MissLooksLikeEmptyValue`).

## Model

| member | source | states |
|---|---|---|
| SingletonJava.Statics.constructor | CreationalPatterns/SingletonPattern/SingletonPattern.java:15 | the instance slot starts out null |
| SingletonJava.CacheManager.constructor | CreationalPatterns/SingletonPattern/SingletonPattern.java:29-31 | a new cache manager starts with an empty cache |
| SingletonJava.Statics.GetInstance | CreationalPatterns/SingletonPattern/SingletonPattern.java:38-49 | the first call creates an instance with an empty cache; every later call returns that same instance with its contents untouched |
| SingletonJava.CacheManager.Put | CreationalPatterns/SingletonPattern/SingletonPattern.java:57-62 | a null key throws IllegalArgumentException("Cache key cannot be null") and leaves the cache as it was; otherwise the key is bound to the value |
| SingletonJava.CacheManager.Get | CreationalPatterns/SingletonPattern/SingletonPattern.java:69-74 | a null key throws the same exception; otherwise the result is the stored value, or null when the key is absent |
| SingletonJava.CacheManager.Clear | CreationalPatterns/SingletonPattern/SingletonPattern.java:79-81 | the cache becomes empty |
| SingletonJava.CacheManager.Size | CreationalPatterns/SingletonPattern/SingletonPattern.java:87-89 | the result is the number of keys |
| SingletonJava.CacheManager.ToString | CreationalPatterns/SingletonPattern/SingletonPattern.java:96-107 | the text is the header followed by one "  Key: k, Value: v" line per entry, in some enumeration of the keys, or the "(empty)" marker; an empty cache gives exactly the header and the marker, a non-empty one ends in a newline |
| SingletonJava.Render | CreationalPatterns/SingletonPattern/SingletonPattern.java:97-106 | the StringBuilder loop produces CacheText of the entries it is given |
| SingletonJava.PutThenGet | CreationalPatterns/SingletonPattern/SingletonPattern.java:57-74 | after put(k, v), get(k) returns v and get of any other key gives what it gave before |
| SingletonJava.PutSize | CreationalPatterns/SingletonPattern/SingletonPattern.java:57-89 | put grows size by one for a new key and keeps it for an existing key |
| SingletonJava.NullKeyRejected | CreationalPatterns/SingletonPattern/SingletonPattern.java:58-72 | a null key is rejected by both put and get, with the documented message, and leaves the cache as it was |
| SingletonJava.AbsentIsNull | CreationalPatterns/SingletonPattern/SingletonPattern.java:69-74 | get returns null exactly when the key is not in the cache |
| SingletonJava.EmptyText | CreationalPatterns/SingletonPattern/SingletonPattern.java:96-107 | an empty cache renders as "Cache Contents:\n  (empty)" |
| SingletonJava.NonEmptyText | CreationalPatterns/SingletonPattern/SingletonPattern.java:96-107 | a non-empty cache renders as the header line and then one line per key, and the lines are exactly the entries |
| SingletonJava.SingleEntryText | CreationalPatterns/SingletonPattern/SingletonPattern.java:96-107 | a one-entry cache renders as the header and that entry's line, whatever the hash order |
| SingletonJava.SharedInstanceScenario | CreationalPatterns/SingletonPattern/SingletonPattern.java:116-139 | after the demonstration's puts the cache holds 2 and then 3 entries, get("user:123") returns "Alice Smith", and both references are the same instance |
| SingletonJava.ClearScenario | CreationalPatterns/SingletonPattern/SingletonPattern.java:141-145 | after the demonstration's three puts, clearing through the second reference leaves size 0 and the empty listing seen through the first |
| SingletonCpp.CacheManager.constructor | CreationalPatterns/SingletonPattern/SingletonPattern.cpp:92 | a new cache manager starts with an empty cache |
| SingletonCpp.Statics.constructor | CreationalPatterns/SingletonPattern/SingletonPattern.cpp:106-107 | the instance pointer starts as nullptr and initSingleton has not run |
| SingletonCpp.Statics.InitSingleton | CreationalPatterns/SingletonPattern/SingletonPattern.cpp:94-96 | stores a fresh instance with an empty cache |
| SingletonCpp.Statics.GetInstance | CreationalPatterns/SingletonPattern/SingletonPattern.cpp:23-26 | initSingleton runs exactly once over all calls; later calls return the same instance with its contents untouched |
| SingletonCpp.CacheManager.Put | CreationalPatterns/SingletonPattern/SingletonPattern.cpp:34-40 | an empty key throws invalid_argument("Cache key cannot be empty") and leaves the cache as it was; otherwise the key is bound to the value |
| SingletonCpp.CacheManager.Get | CreationalPatterns/SingletonPattern/SingletonPattern.cpp:47-57 | an empty key throws the same exception; a present key gives its value; a missing key gives the empty string |
| SingletonCpp.CacheManager.Clear | CreationalPatterns/SingletonPattern/SingletonPattern.cpp:62-65 | the cache becomes empty |
| SingletonCpp.CacheManager.Size | CreationalPatterns/SingletonPattern/SingletonPattern.cpp:71-74 | the result is the number of keys |
| SingletonCpp.CacheManager.Print | CreationalPatterns/SingletonPattern/SingletonPattern.cpp:79-89 | the printed text is the header and one line per entry in some enumeration of the keys, or the "(empty)" marker, each line ending in a newline; an empty cache prints exactly the header and the marker |
| SingletonCpp.WriteEntries | CreationalPatterns/SingletonPattern/SingletonPattern.cpp:85-87 | the output loop produces PrintText of the entries it is given |
| SingletonCpp.PutThenGet | CreationalPatterns/SingletonPattern/SingletonPattern.cpp:34-57 | after put(k, v) with a non-empty key, get(k) returns v and every other key is unaffected |
| SingletonCpp.EmptyKeyRejected | CreationalPatterns/SingletonPattern/SingletonPattern.cpp:35-37 | the empty key is rejected by put and get with the documented message |
| SingletonCpp.MissLooksLikeEmptyValue | CreationalPatterns/SingletonPattern/SingletonPattern.cpp:52-56 | a missing key and a key bound to "" give the same get result, although the caches differ |
| SingletonCpp.PutSize | CreationalPatterns/SingletonPattern/SingletonPattern.cpp:34-74 | put grows size by one for a new key and keeps it for an existing key |
| SingletonCpp.EmptyPrint | CreationalPatterns/SingletonPattern/SingletonPattern.cpp:79-89 | an empty cache prints "Cache Contents:\n  (empty)\n" |
| SingletonCpp.NonEmptyPrint | CreationalPatterns/SingletonPattern/SingletonPattern.cpp:79-89 | a non-empty cache prints the header and one terminated line per key, exactly the entries |
| SingletonCpp.SharedInstanceScenario | CreationalPatterns/SingletonPattern/SingletonPattern.cpp:111-132 | the demonstration sees sizes 2 then 3, retrieves "Alice Smith", and both references are the same instance |
| SingletonCpp.ClearScenario | CreationalPatterns/SingletonPattern/SingletonPattern.cpp:134-138 | after the demonstration's three puts, clearing through the second reference leaves size 0 and the empty listing seen through the first |
| SingletonPython.CacheManagerClass.constructor | CreationalPatterns/SingletonPattern/SingletonPattern.py:13 | `_instance` starts as None |
| SingletonPython.CacheManagerClass.New | CreationalPatterns/SingletonPattern/SingletonPattern.py:16-23 | the first call creates an instance and initialises its empty dict; later calls return it with its contents untouched; the instance slot always holds a well-formed dict |
| SingletonPython.CacheManager.InitCache | CreationalPatterns/SingletonPattern/SingletonPattern.py:25-30 | the cache starts as an empty dict |
| SingletonPython.CacheManager.Put | CreationalPatterns/SingletonPattern/SingletonPattern.py:34-48 | a None key raises ValueError("Cache key cannot be None") and leaves the dict as it was; otherwise it assigns the key, appending a new key at the end |
| SingletonPython.CacheManager.Get | CreationalPatterns/SingletonPattern/SingletonPattern.py:50-65 | a None key raises the same error; otherwise the result is the stored value or None |
| SingletonPython.CacheManager.Clear | CreationalPatterns/SingletonPattern/SingletonPattern.py:67-71 | the dict becomes empty |
| SingletonPython.CacheManager.Size | CreationalPatterns/SingletonPattern/SingletonPattern.py:73-80 | the result is the number of entries |
| SingletonPython.CacheManager.Str | CreationalPatterns/SingletonPattern/SingletonPattern.py:82-94 | the text is the header and the entry lines in insertion order joined by newlines, or the "(empty)" marker |
| SingletonPython.PutThenGet | CreationalPatterns/SingletonPattern/SingletonPattern.py:34-65 | after put(k, v), get(k) returns v and every other key is unaffected |
| SingletonPython.PutSizeAndOrder | CreationalPatterns/SingletonPattern/SingletonPattern.py:34-48 | keys stay distinct; a new key is appended at the end; an existing key keeps its place and the size |
| SingletonPython.NoneKeyRejected | CreationalPatterns/SingletonPattern/SingletonPattern.py:46-48 | only None is rejected: the empty string is a valid key |
| SingletonPython.AbsentIsNone | CreationalPatterns/SingletonPattern/SingletonPattern.py:50-65 | get returns None exactly when the key is absent |
| SingletonPython.SizeIsKeyCount | CreationalPatterns/SingletonPattern/SingletonPattern.py:73-80 | len of the dict is the number of distinct keys |
| SingletonPython.EmptyStr | CreationalPatterns/SingletonPattern/SingletonPattern.py:89-90 | an empty cache is "Cache Contents:\n  (empty)" |
| SingletonPython.StrIsJavaWithoutFinalNewline | CreationalPatterns/SingletonPattern/SingletonPattern.py:82-94 | for the same entries, the Python text of a non-empty cache is the Java text without its final newline; an empty cache gives the same text in both |
| SingletonPython.FirstListing | CreationalPatterns/SingletonPattern/SingletonPattern.py:103-109 | the first listing in the demonstration shows the user entry and then the theme entry |
| SingletonPython.SharedInstanceScenario | CreationalPatterns/SingletonPattern/SingletonPattern.py:97-124 | the demonstration prints the first listing, sees sizes 2, 2 and 3, retrieves "Alice Smith", and `cache1 is cache2` |
| SingletonPython.ClearScenario | CreationalPatterns/SingletonPattern/SingletonPattern.py:126-130 | after the demonstration's three puts, clearing through the second reference leaves size 0 and the empty listing seen through the first |
| CacheFormat.LinesAreTheEntries | CreationalPatterns/SingletonPattern/SingletonPattern.java:101-104 | in any key enumeration there is one entry line per key, and the lines are exactly the key/value pairs |
| HashIteration.IterationOrder | CreationalPatterns/SingletonPattern/SingletonPattern.java:101 | returns an enumeration of the map's keys: no repeats and no key left out |
| HashIteration.SingleEnumeration | CreationalPatterns/SingletonPattern/SingletonPattern.java:101 | a one-key map has only one iteration order |
| BuilderJava.Builder.constructor | CreationalPatterns/BuilderPattern/BuilderPattern.java:68-76 | records url and method, with fresh empty header and query maps and no body |
| BuilderJava.Builder.Create | CreationalPatterns/BuilderPattern/BuilderPattern.java:68-76 | a null url throws IllegalArgumentException("URL is Required"), then a null method throws "HTTP Method is Required"; otherwise it returns a fresh builder |
| BuilderJava.StringMap.constructor | CreationalPatterns/BuilderPattern/BuilderPattern.java:58-59 | `new HashMap<>()` is an empty map |
| BuilderJava.StringMap.Put | CreationalPatterns/BuilderPattern/BuilderPattern.java:86 | HashMap.put binds or rebinds one key |
| BuilderJava.Builder.AddHeader | CreationalPatterns/BuilderPattern/BuilderPattern.java:85-88 | binds the header, returns the same builder and changes nothing else |
| BuilderJava.Builder.AddQueryParam | CreationalPatterns/BuilderPattern/BuilderPattern.java:97-100 | binds the parameter, returns the same builder and changes nothing else |
| BuilderJava.Builder.Body | CreationalPatterns/BuilderPattern/BuilderPattern.java:108-111 | sets the body, which may be null, and returns the same builder |
| BuilderJava.Builder.Build | CreationalPatterns/BuilderPattern/BuilderPattern.java:118-120 | a fresh request whose header and query maps are the builder's own map objects |
| BuilderJava.HttpRequest.constructor | CreationalPatterns/BuilderPattern/BuilderPattern.java:22-28 | copies the builder's fields and shares its maps |
| BuilderJava.HttpRequest.ToString | CreationalPatterns/BuilderPattern/BuilderPattern.java:128-158 | the text for some hash order of the parameters and headers: the request line with "?k=v&…" when there are parameters, a "Headers:" block when there are headers, and a "Body:" block when the body is non-null; the text ends in a newline, and a request with no parameters, no headers and a null body is just "method url" and a newline |
| BuilderJava.Render | CreationalPatterns/BuilderPattern/BuilderPattern.java:129-157 | the StringBuilder code produces RequestText for the enumerated entries |
| BuilderJava.StartLine | CreationalPatterns/BuilderPattern/BuilderPattern.java:130-140 | method, a space, the url and, for a non-empty parameter map, "?" and the joined parameters |
| BuilderJava.QueryTexts | CreationalPatterns/BuilderPattern/BuilderPattern.java:135-138 | one "key=value" text per parameter, in order |
| BuilderJava.Sections | CreationalPatterns/BuilderPattern/BuilderPattern.java:128-158 | the "Headers:" line appears iff there are headers, the "Body:" line iff the body is non-null, the first line is the request line, and the text ends in a newline |
| BuilderJava.TextBlocks | CreationalPatterns/BuilderPattern/BuilderPattern.java:128-158 | the text is the request line, a newline, the headers block and the body block |
| BuilderJava.EmptyBodyShown | CreationalPatterns/BuilderPattern/BuilderPattern.java:153-155 | an empty but non-null body still prints a "Body:" block with an empty line |
| BuilderJava.SharedMapsScenario | CreationalPatterns/BuilderPattern/BuilderPattern.java:118-120 | a header added to the builder after build appears in the built request's headers |
| BuilderJava.SimpleGetScenario | CreationalPatterns/BuilderPattern/BuilderPattern.java:168-174 | the simple GET demonstration prints "GET https://api.example.com/users?id=123" and a newline |
| BuilderJava.ComplexPostScenario | CreationalPatterns/BuilderPattern/BuilderPattern.java:177-182 | the POST demonstration's request maps Content-Type and Authorization to their values, has the version parameter and the JSON body |
| BuilderJava.SimpleGetText | CreationalPatterns/BuilderPattern/BuilderPattern.java:128-158 | the rendering of the simple GET request is that line |
| BuilderCpp.Builder.constructor | CreationalPatterns/BuilderPattern/BuilderPattern.cpp:48-57 | records url and method with empty, sorted header and query maps and an empty body |
| BuilderCpp.Builder.Create | CreationalPatterns/BuilderPattern/BuilderPattern.cpp:48-57 | an empty url throws invalid_argument("URL is Required"), then an empty method throws "HTTP Method is Required"; otherwise it returns a builder |
| BuilderCpp.Builder.AddHeader | CreationalPatterns/BuilderPattern/BuilderPattern.cpp:59-62 | assigns the header in the key-sorted map, keeps it sorted, and changes nothing else |
| BuilderCpp.Builder.AddQueryParam | CreationalPatterns/BuilderPattern/BuilderPattern.cpp:64-67 | assigns the parameter in the key-sorted map, keeps it sorted, and changes nothing else |
| BuilderCpp.Builder.SetBody | CreationalPatterns/BuilderPattern/BuilderPattern.cpp:69-72 | sets the body and returns the same builder |
| BuilderCpp.Builder.Build | CreationalPatterns/BuilderPattern/BuilderPattern.cpp:74-76 | a request value holding copies of the builder's fields, with sorted maps |
| BuilderCpp.HttpRequest.ToString | CreationalPatterns/BuilderPattern/BuilderPattern.cpp:82-113 | the text: the request line with the parameters in key order, a "Headers:" block when there are headers, and a "Body:" block when the body is non-empty |
| BuilderCpp.WriteQuery | CreationalPatterns/BuilderPattern/BuilderPattern.cpp:87-95 | the first-flag loop writes the parameters joined by "&" |
| BuilderCpp.Sections | CreationalPatterns/BuilderPattern/BuilderPattern.cpp:82-113 | the "Headers:" line appears iff there are headers, the "Body:" line iff the body is non-empty, and the text ends in a newline |
| BuilderCpp.TextBlocks | CreationalPatterns/BuilderPattern/BuilderPattern.cpp:82-113 | the text is the request line, a newline, the headers block and the body block |
| BuilderCpp.EmptyBodyHidden | CreationalPatterns/BuilderPattern/BuilderPattern.cpp:107-110 | an empty body prints no body block |
| BuilderCpp.TextDependsOnContents | CreationalPatterns/BuilderPattern/BuilderPattern.cpp:82-113 | two requests binding the same keys to the same values print the same text, whatever order the adds came in |
| BuilderCpp.CopyScenario | CreationalPatterns/BuilderPattern/BuilderPattern.cpp:74-76 | a header added to the builder after build is absent from the earlier request and present in a later one |
| BuilderCpp.ComplexPostScenario | CreationalPatterns/BuilderPattern/BuilderPattern.cpp:129-134 | the POST demonstration's request holds Authorization before Content-Type, the version parameter and the JSON body, and prints as the request line, "Headers:", the Authorization and then the Content-Type line, "Body:" and the body line, each ending in a newline |
| BuilderCpp.ComplexPostLines | CreationalPatterns/BuilderPattern/BuilderPattern.cpp:82-113 | the lines of that request are the request line, the headers title, the two header lines in key order, the body title and the body line |
| BuilderCpp.SimpleGetScenario | CreationalPatterns/BuilderPattern/BuilderPattern.cpp:122-126 | the simple GET demonstration prints "GET https://api.example.com/users?id=123" and a newline |
| BuilderCpp.SimpleGetText | CreationalPatterns/BuilderPattern/BuilderPattern.cpp:82-113 | the rendering of the simple GET request is that line |
| BuilderPython.Builder.constructor | CreationalPatterns/BuilderPattern/BuilderPattern.py:45-61 | records url and method with fresh empty dicts and no body |
| BuilderPython.Builder.Create | CreationalPatterns/BuilderPattern/BuilderPattern.py:45-61 | a None url raises ValueError("URL is Required"), then a None method raises "HTTP Method is Required"; empty strings are accepted |
| BuilderPython.Dict.constructor | CreationalPatterns/BuilderPattern/BuilderPattern.py:59-60 | `{}` is an empty dict |
| BuilderPython.Dict.SetItem | CreationalPatterns/BuilderPattern/BuilderPattern.py:71 | dict assignment keeps keys distinct, appending a new key and keeping an existing key's place |
| BuilderPython.Builder.AddHeader | CreationalPatterns/BuilderPattern/BuilderPattern.py:63-72 | assigns the header in insertion order, returns the same builder and changes nothing else |
| BuilderPython.Builder.AddQueryParam | CreationalPatterns/BuilderPattern/BuilderPattern.py:74-83 | assigns the parameter in insertion order, returns the same builder and changes nothing else |
| BuilderPython.Builder.Body | CreationalPatterns/BuilderPattern/BuilderPattern.py:85-93 | sets the body and returns the same builder |
| BuilderPython.Builder.Build | CreationalPatterns/BuilderPattern/BuilderPattern.py:95-101 | a fresh request sharing the builder's dict objects |
| BuilderPython.HttpRequest.constructor | CreationalPatterns/BuilderPattern/BuilderPattern.py:10-16 | copies the builder's fields and shares its dicts |
| BuilderPython.HttpRequest.Str | CreationalPatterns/BuilderPattern/BuilderPattern.py:103-126 | the parts joined by newlines: request line with the parameters in insertion order, a "Headers:" block when there are headers, and a "Body:" block when the body is truthy |
| BuilderPython.Sections | CreationalPatterns/BuilderPattern/BuilderPattern.py:103-126 | the "Headers:" line appears iff there are headers, the "Body:" line iff the body is neither None nor empty, and the first line is the request line, so the text starts with it |
| BuilderPython.EmptyBodyOmitted | CreationalPattern/BuilderPattern/BuilderPattern.py:122-124 | an empty body prints exactly what None prints |
| BuilderPython.JavaAddsFinalNewline | CreationalPattern/BuilderPattern/BuilderPattern.py:103-126 | for the same entries and any body other than "", the Java text is the Python text plus a final newline |
| BuilderPython.HeaderOrder | CreationalPattern/BuilderPattern/BuilderPattern.py:116-119 | headers print in insertion order, and re-adding a header keeps its place |
| BuilderPython.SharedDictsScenario | CreationalPatterns/BuilderPattern/BuilderPattern.py:95-101 | a header added to the builder after build appears in the built request's headers |
| BuilderPython.SimpleGetScenario | CreationalPatterns/BuilderPattern/BuilderPattern.py:132-137 | the simple GET demonstration prints "GET https://api.example.com/users?id=123" |
| BuilderPython.ComplexPostScenario | CreationalPatterns/BuilderPattern/BuilderPattern.py:140-148 | the POST demonstration's headers are Content-Type then Authorization, in the order added; the parameter is version; the text is the request line, the headers section and the body section joined by newlines |
| BuilderPython.ComplexPostLines | CreationalPatterns/BuilderPattern/BuilderPattern.py:103-126 | the parts of that request are the request line, "Headers:", the two header lines in insertion order, "Body:" and the body line |
| BuilderPython.SimpleGetText | CreationalPatterns/BuilderPattern/BuilderPattern.py:103-126 | the rendering of the simple GET request is that line |
| RequestFormat.RequestLineShape | CreationalPatterns/BuilderPattern/BuilderPattern.java:130-140 | the request line starts with method, space and url; it has nothing more iff there are no parameters, and otherwise "?" and the query string follow |
| RequestFormat.PartsShape | CreationalPatterns/BuilderPattern/BuilderPattern.java:128-158 | positions of the request line, the header lines and the body lines, and when each title line is present |
| RequestFormat.PostRequestLine | CreationalPatterns/BuilderPattern/BuilderPattern.cpp:84-95 | the POST demonstration's request line is "POST https://api.example.com/users?version=1.0" |
| RequestFormat.TerminatedParts | CreationalPatterns/BuilderPattern/BuilderPattern.java:128-158 | the newline-terminated parts are the request line, the headers block and the body block |
| RequestFormat.WriteHeaderLines | CreationalPatterns/BuilderPattern/BuilderPattern.java:145-150 | the header loop writes one "  key: value" line per header, each with a newline |
| RequestFormat.TextsAreTheEntries | CreationalPatterns/BuilderPattern/BuilderPattern.java:147-148 | in any enumeration of a hash map, the rendered lines are one per key and are exactly the map's pairs |
| AssocList.Lookup | CreationalPatterns/SingletonPattern/SingletonPattern.py:65 | nothing is found exactly when no entry has the key; a found value belongs to an entry with that key |
| SortedMap.Assign | CreationalPatterns/BuilderPattern/BuilderPattern.cpp:60 | the assigned pair is in the result, and every other entry of the result was already there |
| SortedMap.AssignSorted | CreationalPatterns/BuilderPattern/BuilderPattern.cpp:43-44 | assigning into a std::map keeps the keys strictly increasing |
| SortedMap.AssignLookup | CreationalPatterns/BuilderPattern/BuilderPattern.cpp:60 | after the assignment the key maps to the new value and other keys are unchanged |
| SortedMap.Canonical | CreationalPatterns/BuilderPattern/BuilderPattern.cpp:43-44 | two sorted maps with the same lookups are the same list, which is why iteration order depends only on contents |
| SortedMap.AssignCommutes | CreationalPatterns/BuilderPattern/BuilderPattern.cpp:130-131 | adding two different keys in either order gives the same map |
| OrderedDict.Assign | CreationalPatterns/SingletonPattern/SingletonPattern.py:48 | the assigned pair is in the result, and every other entry of the result was already there |
| OrderedDict.AssignPositions | CreationalPatterns/SingletonPattern/SingletonPattern.py:48 | dict assignment of an existing key keeps every key in its place; a new key goes at the end |
| FactoryCpp.CreatePayment | CreationalPatterns/FactoryPattern/FactoryPattern.cpp:99-112 | a created kind's tag is exactly the mode |
| FactoryCpp.CreatePaymentExact | CreationalPatterns/FactoryPattern/FactoryPattern.cpp:99-112 | a kind is created exactly when the mode equals its lower-case tag, character for character |
| FactoryCpp.CreatePaymentUnknown | CreationalPatterns/FactoryPattern/FactoryPattern.cpp:109-111 | nullptr is returned exactly for modes other than the four tags |
| FactoryCpp.MixedCaseRejected | CreationalPatterns/FactoryPattern/FactoryPattern.cpp:101-110 | "CreditCard" and "UPI" are not recognised by the exact comparisons |
| FactoryJava.CreatePayment | CreationalPatterns/FactoryPattern/FactoryPattern.java:99-112 | a created kind's tag equals the mode ignoring case |
| FactoryJava.CreatePaymentIgnoringCase | CreationalPatterns/FactoryPattern/FactoryPattern.java:99-112 | a kind is created exactly when the mode equals its tag ignoring case |
| FactoryJava.CreatePaymentLowered | CreationalPatterns/FactoryPattern/FactoryPattern.java:99-112 | a kind is created exactly when the lower-cased mode is its tag |
| FactoryJava.DependsOnLowerOnly | CreationalPatterns/FactoryPattern/FactoryPattern.java:102-108 | the result depends only on the lower-cased mode |
| FactoryJava.SameIgnoringCaseAsLowered | CreationalPatterns/FactoryPattern/FactoryPattern.java:102 | equalsIgnoreCase against a lower-case tag is an exact comparison of the lower-cased mode |
| FactoryJava.ExactOnLowered | CreationalPatterns/FactoryPattern/FactoryPattern.java:102-108 | on a lower-cased mode each of the four comparisons is exact equality |
| FactoryJava.ExactChainOnLowered | CreationalPatterns/FactoryPattern/FactoryPattern.java:102-112 | on a lower-cased mode the factory is the exact-match chain |
| FactoryJava.CaseInsensitive | CreationalPatterns/FactoryPattern/FactoryPattern.java:99-112 | two modes differing only in letter case give the same result |
| FactoryJava.MixedCaseAccepted | CreationalPatterns/FactoryPattern/FactoryPattern.java:125-131 | the demonstration's "CreditCard" and "UPI" give a credit card and a UPI payment |
| FactoryPython.CreatePayment | CreationalPatterns/FactoryPattern/FactoryPattern.py:86-103 | a created kind's tag is the lower-cased mode |
| FactoryPython.LowerThenExact | CreationalPatterns/FactoryPattern/FactoryPattern.py:94-103 | the Python factory is the exact-match factory applied to mode.lower() |
| FactoryPython.CreatePaymentLowered | CreationalPatterns/FactoryPattern/FactoryPattern.py:94-103 | a kind is created exactly when mode.lower() is its tag |
| FactoryPython.CaseInsensitive | CreationalPatterns/FactoryPattern/FactoryPattern.py:94-103 | two modes with the same lower-case form give the same result |
| FactoryPython.AgreesWithJava | CreationalPatterns/FactoryPattern/FactoryPattern.py:86-103 | under the ASCII-only case folding modelled here, the Python and Java factories return the same kind on every mode, or both nothing |
| Text.EqualsIgnoreCaseIsLowerEqual | CreationalPatterns/FactoryPattern/FactoryPattern.java:102 | equalsIgnoreCase holds exactly when the lower-cased strings are equal |

## Left out

- Thread safety is not modelled. That covers Java's `volatile` field with double-checked locking under `synchronized`, C++'s `std::call_once` and `std::mutex`, and Python's `threading.Lock`. Dafny here is sequential, so every call runs atomically.
- The `pay` methods of the payment classes are not modelled, because they only print a message. The factory returns which concrete kind it would construct.
- Printing to standard output and the `main` functions become scenario methods and rendered strings. Nothing is written anywhere.
- The factory `main` functions (FactoryPattern.java:122-135, FactoryPattern.cpp:119-136, FactoryPattern.py:106-119) are not replayed, because besides `createPayment` they only call `pay`. Java's calls on "CreditCard" and "UPI" are stated by `FactoryJava.MixedCaseAccepted`; the C++ and Python calls on "creditcard" and "upi" follow from `FactoryCpp.CreatePaymentExact` and `FactoryPython.CreatePaymentLowered`.
- The listings printed through a hash map (the Java and C++ cache listings with entries, and Java's complex POST request) are not stated as concrete text, because their line order is the map's unspecified iteration order. The scenarios state the contents instead, and the rendering lemmas state how any order is printed.
- Java's `int` result of `size()` is a `nat`. A cache cannot hold 2^31 entries in practice.
- Null values are not representable: Java's builder maps and cache accept null header keys and null values, and Python's dicts accept None values, but the model's keys and values are always strings (or `V`).
- Case folding covers ASCII letters only. Java's `equalsIgnoreCase` and Python's `lower()` also fold other Unicode letters.
- FactoryPython.AgreesWithJava: holds only under the ASCII-only folding. With full Unicode folding the mode "upİ" (capital I with dot above) differs: Java's `Character.toLowerCase('\u0130')` is 'i', so `equalsIgnoreCase("upi")` holds and Java returns a UPI payment, while Python's `lower()` gives "upi" plus a combining dot, so Python returns None.
- A null or None mode passed to a factory (a NullPointerException or AttributeError in the source) is not modelled. The mode is always a string.
- C++ memory management (`new`/`delete` of payment objects and of the singleton) is left out.
- Cache values are a type parameter `V` shown through a `show` function. This stands for Java's `Object.toString()` and Python's `str()`, whose dynamic dispatch is not modelled.
- Getters (`getUrl`, `url` properties) are the request's constant fields, read directly.
- Hash iteration order is any enumeration of the keys. The actual order of `HashMap` and `std::unordered_map` is left unspecified, as in the source.
- `std::string` ordering in `std::map` is `char_traits<char>::compare`, which compares characters as `unsigned char`. The model's strings hold Unicode characters and `Text.Less` orders them by code point. For UTF-8 encoded strings that is the same order as the byte-wise `unsigned char` comparison, because UTF-8 preserves code-point order.
- The Java and C++ Builder constructors throw. Here each one is a static `Create` method returning a `Result`, and the Dafny constructor only records arguments that were already checked.
- C++ access control is left out: the private `HttpRequest` constructor is reachable only from `Builder` in the source, while the model's request is a plain value.
