# cucm-axl: a Dafny model of the AXL request builder and response unwrapper

This project models the deterministic core of `index.js`, a client for Cisco's
Administrative XML Layer (AXL), the SOAP API of a CUCM call-control server.

- **Operation naming.** An operation is a verb and an entity, such as
  (`get`, `line`). Its wire name `methodType` is the verb followed by the
  entity with its first letter upper-cased (`getLine`).
- **The request `run` posts.** The URL is `https://{host}:8443/axl/`. The
  `Authorization` header uses HTTP Basic authentication over `user:pass`
  (section 2 of RFC 7617). The `SOAPAction` header is
  `CUCM:DB ver={version} {methodType}`. The body is a SOAP 1.1 envelope with
  the operation's inner body placed verbatim inside `<axl:{methodType}>`.
- **Inner bodies.**
  - get/remove operations serialise flat key/value pairs as
    `<key>value</key>`, with no escaping. This is a loop in the source and a
    method with a loop invariant here.
  - `listLine` wraps those pairs in `<searchCriteria>` and the returned tags
    in `<returnedTags>` as `<tag/>`.
  - The SQL helpers interpolate their arguments unescaped into a statement
    inside `<sql>`.
- **Completing `run`.**
  - On success, the result is `return[type] || return`, read from
    `soapenv:Envelope / soapenv:Body / ns:{methodType}Response / return`.
  - On failure, the catch block throws the SOAP fault string, or the
    secondary error raised while looking for it.

Files:
- `text.dfy` (module `Text`) holds ASCII upper-casing, prefix/suffix stripping
  and a first-occurrence split.
- `js_value.dfy` (module `JsValue`) holds the parsed-XML value, JavaScript
  truthiness and property reads, which throw on `undefined`/`null`.
- `axl.dfy` (module `CucmAxl`) holds everything from `index.js`.

The URL, header, envelope, one-argument SQL and listLine-block templates each get a
partner that inverts them, in the form
`Strip(prefix, suffix, template(x)) == Some(x)`. The two-argument INSERT
gives back only its joined arguments, which do not determine the pair
(`InsertArgumentsAmbiguous`). The flat and returned-tag
formats each get a small reference reader (`ParseFlat`, `ParseTags`) that
takes text literally: no entity decoding, no XML name rules. The round trip
through each of these readers is proved in both directions. It succeeds
exactly when no key holds `>` and no value holds `<` (flat), or no tag holds
`/` (returned tags).

Three facts about the code shape the model:
- The code has no special case for a `row` field in the unwrapped result
  (`index.js:53`). Only `return[type] || return` exists, so an SQL result
  comes back as the whole `return` object (`RowsReturnedWhole`).
- Despite the comment at `index.js:63`, the original error is never thrown:
  `throw e` is commented out (`index.js:64`). What is thrown is the
  secondary error `e2`.
- A failure after a successful POST (unparsable XML, a missing response
  element, `index.js:50-53`) reaches the catch block with an error that has
  no `response`. Reading `e.response.data` there (`index.js:58`) throws a
  TypeError, and that TypeError is what `run` throws
  (`SuccessPathFailureThrowsTypeError`). This happens even when the body held
  a SOAP fault.

## Model

| member | source | states |
|---|---|---|
| `Text.UpperAscii` | index.js:7 | `toUpperCase` on one ASCII character: a–z map to A–Z (code point minus 32), other characters are left as they are (see Left out); the result is never a lower-case ASCII letter |
| `CucmAxl.CapitalizeFirstLetter` | index.js:6-8 | length is preserved; `""` stays `""`; otherwise the first character is upper-cased and the rest equals `s[1..]` |
| `CucmAxl.CapitalizeIdempotent` | index.js:6-8 | capitalising twice equals capitalising once |
| `CucmAxl.CapitalizeUnchanged` | index.js:6-8 | the string is unchanged if and only if it is empty or does not start with a lower-case letter |
| `CucmAxl.MethodType` | index.js:27 | `methodType` is the verb, unchanged, followed by the capitalised entity; its length is the sum of the two |
| `CucmAxl.MethodTypeCollides` | index.js:27 | for one verb, two entities give the same operation name if and only if their capitalisations are equal (`line` and `Line` collide) |
| `CucmAxl.MethodTypeOfLine` | index.js:27 | ("get","line") gives `getLine` and ("list","line") gives `listLine` |
| `CucmAxl.MethodTypeOfSqlQuery` | index.js:27 | ("execute","SQLQuery") gives `executeSQLQuery` |
| `CucmAxl.UrlNamesHost` | index.js:28 | the URL is `https://` + host + `:8443/axl/`; stripping the two fixed parts gives back the host |
| `CucmAxl.SoapActionNamesOperation` | index.js:33 | `SOAPAction` is `CUCM:DB ver=` + version + space, followed by exactly the operation name |
| `CucmAxl.AuthorizationDecodes` | index.js:29-31 | the header is `Basic ` + base64(user:pass); any decoder that inverts the encoder recovers exactly `user:pass` |
| `CucmAxl.EnvelopeEmbedsInnerBody` | index.js:35-44 | the fixed SOAP envelope, then `<axl:{methodType} xmlns:axl="http://www.cisco.com/AXL/API/{version}">`, then the inner body verbatim and unescaped, then `</axl:{methodType}>` and the closing envelope; stripping the fixed parts gives the inner body back |
| `CucmAxl.RequestReadsBack` | index.js:26-44 | (via `Axl.Request`) in the request `run` builds, the URL gives back the host, `Authorization` decodes to `user:pass`, `Content-Type` is `text/xml`, `SOAPAction` ends with the operation name, and the envelope gives back the inner body |
| `CucmAxl.FlatAppend` | index.js:95-98 | serialising two runs of entries gives their serialisations concatenated, in order |
| `CucmAxl.FlatCons` | index.js:95-98 | the first entry's `<key>value</key>` comes first, followed by the rest |
| `CucmAxl.FlatSingle` | index.js:97 | one entry gives exactly `<key>value</key>` |
| `CucmAxl.FlatAt` | index.js:95-98 | every entry's element appears verbatim, after the elements of the earlier entries and before those of the later ones |
| `CucmAxl.FlatRoundTrip` | index.js:95-98 | the serialisation reads back as the same entries in the same order if and only if no key holds `>` and no value holds `<` (nothing is escaped) |
| `CucmAxl.FlatBody` | index.js:95-98 | (against `Flat`) the loop that starts from `''` and appends one element per entry produces the flat serialisation of all entries |
| `CucmAxl.GetLine` | index.js:93-101 | runs ("get","line") with the flat serialisation of the criteria |
| `CucmAxl.GetPhone` | index.js:103-112 | runs ("get","phone") with the flat serialisation of the criteria |
| `CucmAxl.GetRemoteDestination` | index.js:114-123 | runs ("get","remoteDestination") with the flat serialisation of the criteria |
| `CucmAxl.RemoveLine` | index.js:144-152 | runs ("remove","line") with the flat serialisation of the details |
| `CucmAxl.RemovePhone` | index.js:154-162 | runs ("remove","phone") with the flat serialisation of the details |
| `CucmAxl.RemoveRemoteDestination` | index.js:165-173 | runs ("remove","remoteDestination") with the flat serialisation of the details |
| `CucmAxl.TagListAppend` | index.js:136-138 | the returned tags of two runs serialise to the concatenation of each run's serialisation, in array order |
| `CucmAxl.TagListCons` | index.js:136-138 | the first tag's `<tag/>` comes first |
| `CucmAxl.TagListRoundTrip` | index.js:136-138 | (of `TagList`) the `<tag/>` run reads back as the same tags in the same order if and only if no tag holds `/` |
| `CucmAxl.ListLine` | index.js:126-142 | (against `ListBody`) runs ("list","line") with `<searchCriteria>` + flat criteria + `</searchCriteria><returnedTags>` + one `<tag/>` per returned tag, in order + `</returnedTags>` |
| `CucmAxl.SearchCriteriaExample` | test/test.js:16 | criteria `{pattern:'*377'}` give `<searchCriteria><pattern>*377</pattern></searchCriteria>` |
| `CucmAxl.SearchCriteriaBlockReadsBack` | index.js:128-132 | stripping `<searchCriteria>`/`</searchCriteria>` gives the flat body back, and the reference reader then recovers the criteria if and only if no key holds `>` and no value holds `<` |
| `CucmAxl.ReturnedTagsBlockReadsBack` | index.js:135-139 | stripping `<returnedTags>`/`</returnedTags>` gives the tag run back, and the reference reader then recovers the tags if and only if no tag holds `/` |
| `CucmAxl.ReturnedTagsExample` | test/test.js:16 | tags `['description']` give `<returnedTags><description/></returnedTags>` |
| `CucmAxl.ListBodyExample` | test/test.js:16 | the listLine body for that call is exactly `<searchCriteria><pattern>*377</pattern></searchCriteria><returnedTags><description/></returnedTags>` |
| `CucmAxl.GetApplicationUserUuid` | index.js:182-186 | runs ("execute","SQLQuery"); the body is `<sql>SELECT pkid from applicationuser WHERE name = '`, then the name verbatim, then `'</sql>` |
| `CucmAxl.GetApplicationUserDeviceAssociations` | index.js:175-180 | runs ("execute","SQLQuery"); the body is the device-map query with the name verbatim between `name = '` and `')</sql>` |
| `CucmAxl.AssociateDeviceWithApplicationUser` | index.js:189-194 | runs ("execute","SQLUpdate"); the INSERT statement holds the user name, then `'), '`, then the device id, both verbatim, between the fixed head and `', 1)</sql>` |
| `CucmAxl.InsertArgumentsAmbiguous` | index.js:189-194 | for every user name, moved text and device id, the user name `user'), 'moved` with that device id gives the same INSERT as the user name `user` with the device id `moved'), 'deviceUuid`, so the statement does not determine its two arguments |
| `CucmAxl.UuidQueryInjection` | index.js:183-184 | for every name `pre' post` whose first quote follows `pre`, the quoted SQL literal of the query holds exactly `pre`; the rest of the name follows the closing quote as SQL text |
| `JsValue.Get` | index.js:52-53 | a property read throws a TypeError naming the property if and only if the value is `undefined` or `null`; a defined result is the object's own property |
| `JsValue.Path` | index.js:52 | a chained read either succeeds or throws a TypeError naming one of the keys in the chain |
| `JsValue.PathDefined` | index.js:52 | a chained read yields a value other than `undefined`/`null` if and only if every step is an own property of an object |
| `CucmAxl.PathAppend` | index.js:59 | a chained read can be split at any point: the rest continues from where the first part stopped, or the whole read fails where the first part failed |
| `CucmAxl.Respond` | index.js:46-67 | (via `Attempt`/`Recover`) a returned value comes only from a successful response and is never `undefined` or `null`; a rejected request always throws; the thrown value is never the transport error |
| `CucmAxl.UnwrapOnSuccess` | index.js:52-53 | (of `Unwrapped`, with `Truthy`) with a `return` element that is not null under Envelope/Body/ns:{methodType}Response, the result is `return[type]` if that is truthy, otherwise `return` itself; this covers a string `return` and an empty-string `return[type]` |
| `CucmAxl.ReturnedOnlyOnSuccess` | index.js:48-53 | every returned value comes from a parsed successful response that has that path, and is the unwrapped `return` |
| `CucmAxl.RowsReturnedWhole` | index.js:53 | a `return` holding only `row` is returned whole, because `row` is not special-cased |
| `CucmAxl.SuccessPathFailureThrowsTypeError` | index.js:48-62 | any failure after a successful POST throws the TypeError from reading `e.response.data` |
| `CucmAxl.ThrowsFaultString` | index.js:56-59 | a parsable error body with a non-null Envelope/Body/Fault throws that fault's `faultstring`, or `undefined` when it has none |
| `CucmAxl.ItemNotFoundExample` | index.js:56-66 | a fault with faultstring `Item not found` makes `run` throw exactly that string |
| `CucmAxl.ThrowsSecondaryError` | index.js:54-66 | no response body throws the TypeError of `e.response.data`; an unparsable error body throws the parse error; a body without a fault throws a TypeError of the failed read; the original error `e` is never thrown |

## Left out

- The HTTPS POST through axios and the `async`/`await` around it (`index.js:48`) are network I/O. Their outcome is the input `Posted`.
- The XML parser (`parse-xml.js`, xml2js with `explicitArray: false`, plus `dotenv` loading) is a foreign library and environment I/O. It is the input `parse`, a function from text to a parsed `JVal` tree or a parse error.
- Base64 encoding through Node's `Buffer` (`index.js:29`) is a library call. It is a function parameter. RFC 4648 is not re-verified.
- addLine, addPhone and addRemoteDestination (`index.js:71-90`) hand a nested object to js2xmlparser. Its attribute-marker serialisation is not part of this model, and neither is the `js2xmlOptions` record the constructor sets for them (`index.js:17-22`).
- Text.UpperAscii, CapitalizeFirstLetter: upper-case only the ASCII letters a–z. JavaScript's `toUpperCase` also maps other letters and can lengthen a string (`ß` becomes `SS`).
- AssociateDeviceWithApplicationUser: its partner gives back only the joined text `appUserName'), 'deviceUuid`, which does not determine the two arguments (InsertArgumentsAmbiguous); no inverse for the pair is stated.
- ParseFlat, ParseTags: these reference readers take the text literally. They decode no entities (`&amp;`) and apply no XML name rules (a key `a b` is accepted), so FlatRoundTrip and TagListRoundTrip are round trips through these readers, not through an XML parser. No listLine reader is given for the whole body: a criteria key `searchCriteria` makes the block boundary ambiguous.
- JsValue.Get: reading a property of a string or an array gives `undefined` for every key. Indices, `length` and prototype members (such as a string's `link`) are not modelled. None of the entities the client passes is such a key.
- FlatBody: the entries are the pairs in the order `for…in` visits them, with values already converted to strings. JavaScript's key ordering (integer-like keys first), inherited enumerable properties and the `${}` conversion of non-string values are not modelled. An `undefined` mapping is the empty sequence.
- Errors are modelled only by kind and, for TypeErrors, the property read. The exact message texts of JavaScript and axios are not modelled.
- Connection settings are strings. The `"undefined"` text that a missing setting would put in the URL or headers is not modelled.
- Concurrent calls share nothing mutable, so each call is modelled on its own.
