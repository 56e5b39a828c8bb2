/**
  The AXL client of index.js: how an operation (verb, entity) is named, how
  the request text is built (the operation's inner body, the SOAP envelope
  around it, the URL and the headers), and how the outcome of the HTTPS POST
  is turned into the value `run` returns or the value it throws.

  The POST itself and the XML parser are not modelled: their outcomes are
  inputs (`Posted`, and a `parse` function from text to a parsed tree).
 */
module CucmAxl {
  import opened Text
  import opened JsValue

  // ---------------------------------------------------------------------
  // Operation naming
  // ---------------------------------------------------------------------

  /** `capitalizeFirstLetter`: the first character upper-cased, the rest
      unchanged; the empty string stays empty. */
  function CapitalizeFirstLetter(s: string): (r: string)
    ensures |r| == |s|
    ensures s != [] ==> r[0] == UpperAscii(s[0]) && r[1..] == s[1..]
  {
    if s == [] then [] else [UpperAscii(s[0])] + s[1..]
  }

  /** Capitalising twice is capitalising once. */
  lemma CapitalizeIdempotent(s: string)
    ensures CapitalizeFirstLetter(CapitalizeFirstLetter(s)) == CapitalizeFirstLetter(s)
  {
  }

  /** A string is left as it is exactly when it is empty or does not start
      with a lower-case letter. */
  lemma CapitalizeUnchanged(s: string)
    ensures CapitalizeFirstLetter(s) == s <==> s == [] || !IsLowerAscii(s[0])
  {
  }

  /** The operation name `methodType`: the verb followed by the capitalised
      entity. */
  function MethodType(verb: string, entity: string): (r: string)
    ensures |r| == |verb| + |entity|
    ensures r[..|verb|] == verb
    ensures r[|verb|..] == CapitalizeFirstLetter(entity)
  {
    var r := verb + CapitalizeFirstLetter(entity);
    assert r[..|verb|] == verb;
    r
  }

  /** For a given verb, two entities name the same operation exactly when they
      differ at most in the case of their first letter. */
  lemma MethodTypeCollides(verb: string, entity1: string, entity2: string)
    ensures MethodType(verb, entity1) == MethodType(verb, entity2)
        <==> CapitalizeFirstLetter(entity1) == CapitalizeFirstLetter(entity2)
  {
  }

  /** The entity "line" names getLine, listLine and removeLine. */
  lemma MethodTypeOfLine()
    ensures MethodType("get", "line") == "getLine"
    ensures MethodType("list", "line") == "listLine"
  {
    assert "line"[1..] == "ine";
    assert UpperAscii('l') == 'L';
    assert CapitalizeFirstLetter("line") == "Line";
  }

  /** An entity that already starts with a capital keeps it: executeSQLQuery. */
  lemma MethodTypeOfSqlQuery()
    ensures MethodType("execute", "SQLQuery") == "executeSQLQuery"
  {
    CapitalizeUnchanged("SQLQuery");
  }

  // ---------------------------------------------------------------------
  // The request: URL, headers and SOAP envelope
  // ---------------------------------------------------------------------

  /** The AXL endpoint of a host. */
  function Url(host: string): string {
    "https://" + host + ":8443/axl/"
  }

  /** The URL names the host and nothing else varies. */
  lemma UrlNamesHost(host: string)
    ensures Strip("https://", ":8443/axl/", Url(host)) == Some(host)
  {
    StripWrapped("https://", host, ":8443/axl/");
  }

  /** The value of the `SOAPAction` header. */
  function SoapAction(version: string, methodType: string): string {
    "CUCM:DB ver=" + version + " " + methodType
  }

  /** The `SOAPAction` header names the API version and ends with the
      operation name. */
  lemma SoapActionNamesOperation(version: string, methodType: string)
    ensures Strip("CUCM:DB ver=" + version + " ", "", SoapAction(version, methodType)) == Some(methodType)
  {
    var head := "CUCM:DB ver=" + version + " ";
    assert SoapAction(version, methodType) == head + methodType + "";
    StripWrapped(head, methodType, "");
  }

  /** The `Authorization` header of HTTP Basic authentication (section 2 of
      RFC 7617): the scheme name, a space, and the base64 encoding of
      `user:pass`. The encoder is a parameter. */
  function Authorization(base64: string -> string, user: string, pass: string): string {
    "Basic " + base64(user + ":" + pass)
  }

  /** Whatever decoder undoes the encoder recovers `user:pass` from the
      header. */
  lemma AuthorizationDecodes(base64: string -> string, decode: string -> string, user: string, pass: string)
    requires forall x :: decode(base64(x)) == x
    ensures var credentials := Strip("Basic ", "", Authorization(base64, user, pass));
      credentials.Some? && decode(credentials.value) == user + ":" + pass
  {
    var encoded := base64(user + ":" + pass);
    assert Authorization(base64, user, pass) == "Basic " + encoded + "";
    StripWrapped("Basic ", encoded, "");
  }

  const Indent := "\n    "

  /** The envelope text up to the operation element. */
  const SoapHead :=
    "<soapenv:Envelope" + Indent
    + "xmlns:soapenv=\"http://schemas.xmlsoap.org/soap/envelope/\"" + Indent
    + "xmlns:xsd=\"http://www.w3.org/2001/XMLSchema\"" + Indent
    + "xmlns:xsi=\"http://www.w3.org/2001/XMLSchema-instance\">" + Indent
    + "<soapenv:Body>" + Indent

  /** The envelope text after the operation element. */
  const SoapTail := Indent + "</soapenv:Body>" + Indent + "</soapenv:Envelope>"

  function OperationOpen(methodType: string, version: string): string {
    "<axl:" + methodType + " xmlns:axl=\"http://www.cisco.com/AXL/API/" + version + "\">"
  }

  function OperationClose(methodType: string): string {
    "</axl:" + methodType + ">"
  }

  /** The SOAP 1.1 request body of one operation. */
  function Envelope(methodType: string, version: string, innerBody: string): string {
    SoapHead + OperationOpen(methodType, version) + Indent + innerBody + Indent + OperationClose(methodType) + SoapTail
  }

  /** The inner body stands verbatim, unescaped, between the opening and the
      closing tag of the operation element (each on its own indented line),
      inside the fixed envelope: stripping those gives it back. */
  lemma EnvelopeEmbedsInnerBody(methodType: string, version: string, innerBody: string)
    ensures Strip(SoapHead + OperationOpen(methodType, version) + Indent,
                  Indent + OperationClose(methodType) + SoapTail,
                  Envelope(methodType, version, innerBody)) == Some(innerBody)
  {
    var before := SoapHead + OperationOpen(methodType, version) + Indent;
    var after := Indent + OperationClose(methodType) + SoapTail;
    assert Envelope(methodType, version, innerBody) == before + innerBody + after;
    StripWrapped(before, innerBody, after);
  }

  /** The request `run` sends. */
  datatype HttpRequest = HttpRequest(
    url: string,
    authorization: string,
    contentType: string,
    soapAction: string,
    body: string)

  /** The client: connection settings fixed at construction. */
  datatype Axl = Axl(host: string, user: string, pass: string, version: string) {

    /** The request `run(verb, entity, innerBody)` posts. */
    function Request(base64: string -> string, verb: string, entity: string, innerBody: string): HttpRequest {
      var methodType := MethodType(verb, entity);
      HttpRequest(
        Url(host),
        Authorization(base64, user, pass),
        "text/xml",
        SoapAction(version, methodType),
        Envelope(methodType, version, innerBody))
    }
  }

  /** Every part of the request can be read back: the host from the URL, the
      credentials from the `Authorization` header, the operation name from the
      `SOAPAction` header, and the inner body from the envelope. */
  lemma RequestReadsBack(axl: Axl, base64: string -> string, decode: string -> string,
                         verb: string, entity: string, innerBody: string)
    requires forall x :: decode(base64(x)) == x
    ensures var r := axl.Request(base64, verb, entity, innerBody);
      var methodType := MethodType(verb, entity);
      && Strip("https://", ":8443/axl/", r.url) == Some(axl.host)
      && Strip("Basic ", "", r.authorization).Some?
      && decode(Strip("Basic ", "", r.authorization).value) == axl.user + ":" + axl.pass
      && r.contentType == "text/xml"
      && Strip("CUCM:DB ver=" + axl.version + " ", "", r.soapAction) == Some(methodType)
      && Strip(SoapHead + OperationOpen(methodType, axl.version) + Indent,
               Indent + OperationClose(methodType) + SoapTail, r.body) == Some(innerBody)
  {
    var methodType := MethodType(verb, entity);
    UrlNamesHost(axl.host);
    AuthorizationDecodes(base64, decode, axl.user, axl.pass);
    SoapActionNamesOperation(axl.version, methodType);
    EnvelopeEmbedsInnerBody(methodType, axl.version, innerBody);
  }

  // ---------------------------------------------------------------------
  // Inner bodies
  // ---------------------------------------------------------------------

  /** The arguments an operation passes to `run`. */
  datatype Call = Call(verb: string, entity: string, innerBody: string)

  /** One field of a flat mapping as an XML element, key and value verbatim. */
  function Element(key: string, value: string): string {
    "<" + key + ">" + value + "</" + key + ">"
  }

  /** The flat serialisation of key/value pairs, in the order `for…in`
      visits them. */
  function Flat(entries: seq<(string, string)>): string
    decreases |entries|
  {
    if entries == [] then ""
    else
      var n := |entries| - 1;
      Flat(entries[..n]) + Element(entries[n].0, entries[n].1)
  }

  /** Serialising two runs of entries one after the other. */
  lemma {:induction false} FlatAppend(a: seq<(string, string)>, b: seq<(string, string)>)
    ensures Flat(a + b) == Flat(a) + Flat(b)
    decreases |b|
  {
    if b != [] {
      var n := |b| - 1;
      var ab := a + b;
      assert ab[..|a| + n] == a + b[..n];
      assert ab[|a| + n] == b[n];
      assert Flat(ab) == Flat(ab[..|ab| - 1]) + Element(ab[|ab| - 1].0, ab[|ab| - 1].1);
      assert Flat(b) == Flat(b[..n]) + Element(b[n].0, b[n].1);
      FlatAppend(a, b[..n]);
      assert Flat(ab) == Flat(a) + Flat(b[..n]) + Element(b[n].0, b[n].1);
    } else {
      assert a + b == a;
    }
  }

  /** The first entry's element comes first. */
  lemma FlatCons(e: (string, string), rest: seq<(string, string)>)
    ensures Flat([e] + rest) == Element(e.0, e.1) + Flat(rest)
  {
    FlatAppend([e], rest);
    assert [e][..0] == [];
  }

  /** The serialisation of a single entry is its element. */
  lemma FlatSingle(e: (string, string))
    ensures Flat([e]) == Element(e.0, e.1)
  {
  }

  /** Each entry's element stands verbatim in the serialisation, after the
      elements of the entries before it and before those after it. */
  lemma FlatAt(before: seq<(string, string)>, e: (string, string), after: seq<(string, string)>)
    ensures Flat(before + [e] + after) == Flat(before) + Element(e.0, e.1) + Flat(after)
  {
    FlatAppend(before + [e], after);
    FlatAppend(before, [e]);
    FlatSingle(e);
  }

  /** Keys without `>` and values without `<`: the entries the flat format can
      carry, since nothing is escaped. */
  predicate Plain(entries: seq<(string, string)>) {
    forall i :: 0 <= i < |entries| ==> '>' !in entries[i].0 && '<' !in entries[i].1
  }

  /** A reference reader of the flat format: a sequence of
      `<key>value</key>` elements, nothing else. */
  function ParseFlat(s: string): (r: Option<seq<(string, string)>>)
    ensures r.Some? ==> Plain(r.value)
    decreases |s|
  {
    if s == [] then Some([])
    else if s[0] != '<' then None
    else
      match SplitAt(s[1..], '>')
      case None => None
      case Some((key, afterOpen)) =>
        match SplitAt(afterOpen, '<')
        case None => None
        case Some((value, afterValue)) =>
          var close := "/" + key + ">";
          if close <= afterValue then
            match ParseFlat(afterValue[|close|..])
            case None => None
            case Some(rest) => Some([(key, value)] + rest)
          else None
  }

  /** Reading the flat serialisation back gives the entries, in order, exactly
      when no key holds `>` and no value holds `<`. */
  lemma {:induction false} FlatRoundTrip(entries: seq<(string, string)>)
    ensures ParseFlat(Flat(entries)) == Some(entries) <==> Plain(entries)
    decreases |entries|
  {
    if Plain(entries) && entries != [] {
      var key, value := entries[0].0, entries[0].1;
      var rest := entries[1..];
      assert entries == [entries[0]] + rest;
      FlatCons(entries[0], rest);
      var close := "/" + key + ">";
      var tail := Flat(rest);
      var s := Flat(entries);
      assert s == ['<'] + (key + ['>'] + (value + ['<'] + (close + tail)));
      assert s[1..] == key + ['>'] + (value + ['<'] + (close + tail));
      SplitAtFirst(key, '>', value + ['<'] + (close + tail));
      SplitAtFirst(value, '<', close + tail);
      assert (close + tail)[|close|..] == tail;
      assert Plain(rest) by {
        forall i | 0 <= i < |rest| ensures '>' !in rest[i].0 && '<' !in rest[i].1 {
          assert rest[i] == entries[i + 1];
        }
      }
      FlatRoundTrip(rest);
    }
  }

  /** The loop of getLine, getPhone, getRemoteDestination, removeLine,
      removePhone and removeRemoteDestination: one element per entry, appended
      in order to an initially empty body. */
  method FlatBody(entries: seq<(string, string)>) returns (innerBody: string)
    ensures innerBody == Flat(entries)
  {
    innerBody := "";
    for i := 0 to |entries|
      invariant innerBody == Flat(entries[..i])
    {
      var key, value := entries[i].0, entries[i].1;
      assert entries[..i + 1][..i] == entries[..i];
      innerBody := innerBody + Element(key, value);
    }
    assert entries[..|entries|] == entries;
  }

  method GetLine(searchCriteria: seq<(string, string)>) returns (call: Call)
    ensures call == Call("get", "line", Flat(searchCriteria))
  {
    var innerBody := FlatBody(searchCriteria);
    call := Call("get", "line", innerBody);
  }

  method GetPhone(searchCriteria: seq<(string, string)>) returns (call: Call)
    ensures call == Call("get", "phone", Flat(searchCriteria))
  {
    var innerBody := FlatBody(searchCriteria);
    call := Call("get", "phone", innerBody);
  }

  method GetRemoteDestination(searchCriteria: seq<(string, string)>) returns (call: Call)
    ensures call == Call("get", "remoteDestination", Flat(searchCriteria))
  {
    var innerBody := FlatBody(searchCriteria);
    call := Call("get", "remoteDestination", innerBody);
  }

  method RemoveLine(details: seq<(string, string)>) returns (call: Call)
    ensures call == Call("remove", "line", Flat(details))
  {
    var innerBody := FlatBody(details);
    call := Call("remove", "line", innerBody);
  }

  method RemovePhone(details: seq<(string, string)>) returns (call: Call)
    ensures call == Call("remove", "phone", Flat(details))
  {
    var innerBody := FlatBody(details);
    call := Call("remove", "phone", innerBody);
  }

  method RemoveRemoteDestination(details: seq<(string, string)>) returns (call: Call)
    ensures call == Call("remove", "remoteDestination", Flat(details))
  {
    var innerBody := FlatBody(details);
    call := Call("remove", "remoteDestination", innerBody);
  }

  /** A returned tag as a self-closing element. */
  function SelfClosing(tag: string): string {
    "<" + tag + "/>"
  }

  /** The returned tags, in array order. */
  function TagList(tags: seq<string>): string
    decreases |tags|
  {
    if tags == [] then ""
    else
      var n := |tags| - 1;
      TagList(tags[..n]) + SelfClosing(tags[n])
  }

  lemma {:induction false} TagListAppend(a: seq<string>, b: seq<string>)
    ensures TagList(a + b) == TagList(a) + TagList(b)
    decreases |b|
  {
    if b != [] {
      var n := |b| - 1;
      var ab := a + b;
      assert ab[..|a| + n] == a + b[..n];
      assert ab[|a| + n] == b[n];
      assert TagList(ab) == TagList(ab[..|ab| - 1]) + SelfClosing(ab[|ab| - 1]);
      assert TagList(b) == TagList(b[..n]) + SelfClosing(b[n]);
      TagListAppend(a, b[..n]);
      assert TagList(ab) == TagList(a) + TagList(b[..n]) + SelfClosing(b[n]);
    } else {
      assert a + b == a;
    }
  }

  /** A reference reader of a run of self-closing elements `<tag/>`. */
  function ParseTags(s: string): (r: Option<seq<string>>)
    ensures r.Some? ==> PlainTags(r.value)
    decreases |s|
  {
    if s == [] then Some([])
    else if s[0] != '<' then None
    else
      match SplitAt(s[1..], '/')
      case None => None
      case Some((tag, after)) =>
        if after != [] && after[0] == '>' then
          match ParseTags(after[1..])
          case None => None
          case Some(rest) => Some([tag] + rest)
        else None
  }

  /** Tags without `/`: the ones a self-closing element can carry. */
  predicate PlainTags(tags: seq<string>) {
    forall i :: 0 <= i < |tags| ==> '/' !in tags[i]
  }

  /** The first tag's element comes first. */
  lemma TagListCons(tag: string, rest: seq<string>)
    ensures TagList([tag] + rest) == SelfClosing(tag) + TagList(rest)
  {
    TagListAppend([tag], rest);
    assert [tag][..0] == [];
  }

  /** Reading the returned tags back gives them, in order, exactly when no
      tag holds `/`. */
  lemma {:induction false} TagListRoundTrip(tags: seq<string>)
    ensures ParseTags(TagList(tags)) == Some(tags) <==> PlainTags(tags)
    decreases |tags|
  {
    if PlainTags(tags) && tags != [] {
      var tag, rest := tags[0], tags[1..];
      assert tags == [tag] + rest;
      TagListCons(tag, rest);
      var tail := TagList(rest);
      var s := TagList(tags);
      assert s == ['<'] + (tag + ['/'] + (['>'] + tail));
      assert s[1..] == tag + ['/'] + (['>'] + tail);
      SplitAtFirst(tag, '/', ['>'] + tail);
      assert (['>'] + tail)[1..] == tail;
      assert PlainTags(rest) by {
        forall i | 0 <= i < |rest| ensures '/' !in rest[i] {
          assert rest[i] == tags[i + 1];
        }
      }
      TagListRoundTrip(rest);
    }
  }

  /** The `<searchCriteria>` block of listLine. */
  function SearchCriteriaBlock(searchCriteria: seq<(string, string)>): string {
    "<searchCriteria>" + Flat(searchCriteria) + "</searchCriteria>"
  }

  /** The `<returnedTags>` block of listLine. */
  function ReturnedTagsBlock(returnedTags: seq<string>): string {
    "<returnedTags>" + TagList(returnedTags) + "</returnedTags>"
  }

  /** The inner body of listLine: the search criteria as flat elements inside
      `<searchCriteria>`, then the returned tags as self-closing elements
      inside `<returnedTags>`. */
  function ListBody(searchCriteria: seq<(string, string)>, returnedTags: seq<string>): string {
    SearchCriteriaBlock(searchCriteria) + ReturnedTagsBlock(returnedTags)
  }

  /** The `<searchCriteria>` block gives back its flat body, which the
      reference reader turns back into the criteria exactly when they are
      plain. */
  lemma SearchCriteriaBlockReadsBack(searchCriteria: seq<(string, string)>)
    ensures var inner := Strip("<searchCriteria>", "</searchCriteria>", SearchCriteriaBlock(searchCriteria));
      inner.Some? && (ParseFlat(inner.value) == Some(searchCriteria) <==> Plain(searchCriteria))
  {
    StripWrapped("<searchCriteria>", Flat(searchCriteria), "</searchCriteria>");
    FlatRoundTrip(searchCriteria);
  }

  /** The `<returnedTags>` block gives back its run of `<tag/>` elements, which
      the reference reader turns back into the tags exactly when none holds
      `/`. */
  lemma ReturnedTagsBlockReadsBack(returnedTags: seq<string>)
    ensures var inner := Strip("<returnedTags>", "</returnedTags>", ReturnedTagsBlock(returnedTags));
      inner.Some? && (ParseTags(inner.value) == Some(returnedTags) <==> PlainTags(returnedTags))
  {
    StripWrapped("<returnedTags>", TagList(returnedTags), "</returnedTags>");
    TagListRoundTrip(returnedTags);
  }

  lemma SearchCriteriaExample()
    ensures SearchCriteriaBlock([("pattern", "*377")]) == "<searchCriteria><pattern>*377</pattern></searchCriteria>"
  {
    FlatSingle(("pattern", "*377"));
  }

  lemma ReturnedTagsExample()
    ensures ReturnedTagsBlock(["description"]) == "<returnedTags><description/></returnedTags>"
  {
    assert TagList(["description"]) == TagList([]) + SelfClosing("description");
  }

  /** The list request issued for the pattern `*377` with the description
      returned. */
  lemma ListBodyExample()
    ensures ListBody([("pattern", "*377")], ["description"])
         == "<searchCriteria><pattern>*377</pattern></searchCriteria>"
          + "<returnedTags><description/></returnedTags>"
  {
    SearchCriteriaExample();
    ReturnedTagsExample();
  }

  /** listLine: the two loops of index.js, one over the criteria and one over
      the returned tags. */
  method ListLine(searchCriteria: seq<(string, string)>, returnedTags: seq<string>) returns (call: Call)
    ensures call == Call("list", "line", ListBody(searchCriteria, returnedTags))
  {
    var innerBody := "<searchCriteria>";
    for i := 0 to |searchCriteria|
      invariant innerBody == "<searchCriteria>" + Flat(searchCriteria[..i])
    {
      assert searchCriteria[..i + 1][..i] == searchCriteria[..i];
      innerBody := innerBody + Element(searchCriteria[i].0, searchCriteria[i].1);
    }
    assert searchCriteria[..|searchCriteria|] == searchCriteria;
    innerBody := innerBody + "</searchCriteria>";
    innerBody := innerBody + "<returnedTags>";
    var head := innerBody;
    for i := 0 to |returnedTags|
      invariant innerBody == head + TagList(returnedTags[..i])
    {
      assert returnedTags[..i + 1][..i] == returnedTags[..i];
      innerBody := innerBody + SelfClosing(returnedTags[i]);
    }
    assert returnedTags[..|returnedTags|] == returnedTags;
    innerBody := innerBody + "</returnedTags>";
    call := Call("list", "line", innerBody);
  }

  // ---------------------------------------------------------------------
  // SQL operations
  // ---------------------------------------------------------------------

  /** A statement for executeSQLQuery / executeSQLUpdate, verbatim. */
  function SqlBody(query: string): string {
    "<sql>" + query + "</sql>"
  }

  const UuidQueryHead := "SELECT pkid from applicationuser WHERE name = '"
  const AssociationsQueryHead :=
    "SELECT * FROM applicationuserdevicemap" + Indent + "WHERE fkapplicationuser = (SELECT pkid from applicationuser WHERE name = '"
  const InsertHead :=
    "INSERT INTO applicationuserdevicemap (fkapplicationuser, fkdevice, tkuserassociation) VALUES ( (SELECT pkid from applicationuser WHERE name = '"
  const InsertMiddle := "'), '"
  const InsertTail := "', 1)"

  /** getApplicationUserUuid: a query whose quoted name is the argument,
      unescaped. */
  function GetApplicationUserUuid(name: string): (call: Call)
    ensures call.verb == "execute" && call.entity == "SQLQuery"
    ensures Strip("<sql>" + UuidQueryHead, "'</sql>", call.innerBody) == Some(name)
  {
    var query := UuidQueryHead + name + "'";
    var innerBody := SqlBody(query);
    assert innerBody == "<sql>" + UuidQueryHead + name + "'</sql>";
    StripWrapped("<sql>" + UuidQueryHead, name, "'</sql>");
    Call("execute", "SQLQuery", innerBody)
  }

  /** getApplicationUserDeviceAssociations: the device map rows of the
      application user with the given name, unescaped. */
  function GetApplicationUserDeviceAssociations(name: string): (call: Call)
    ensures call.verb == "execute" && call.entity == "SQLQuery"
    ensures Strip("<sql>" + AssociationsQueryHead, "')</sql>", call.innerBody) == Some(name)
  {
    var query := AssociationsQueryHead + name + "')";
    var innerBody := SqlBody(query);
    assert innerBody == "<sql>" + AssociationsQueryHead + name + "')</sql>";
    StripWrapped("<sql>" + AssociationsQueryHead, name, "')</sql>");
    Call("execute", "SQLQuery", innerBody)
  }

  /** associateDeviceWithApplicationUser: an update inserting the pair, with
      the user name and the device id quoted verbatim in that order. */
  function AssociateDeviceWithApplicationUser(deviceUuid: string, appUserName: string): (call: Call)
    ensures call.verb == "execute" && call.entity == "SQLUpdate"
    ensures Strip("<sql>" + InsertHead, InsertTail + "</sql>", call.innerBody)
         == Some(appUserName + InsertMiddle + deviceUuid)
  {
    var query := InsertHead + appUserName + InsertMiddle + deviceUuid + InsertTail;
    var innerBody := SqlBody(query);
    assert innerBody == "<sql>" + InsertHead + (appUserName + InsertMiddle + deviceUuid) + (InsertTail + "</sql>");
    StripWrapped("<sql>" + InsertHead, appUserName + InsertMiddle + deviceUuid, InsertTail + "</sql>");
    Call("execute", "SQLUpdate", innerBody)
  }

  /** The INSERT does not determine its two arguments: a user name holding
      the separator `'), '` moves its tail into the device id slot, and the
      statement is the same. */
  lemma InsertArgumentsAmbiguous(user: string, moved: string, deviceUuid: string)
    ensures AssociateDeviceWithApplicationUser(deviceUuid, user + InsertMiddle + moved).innerBody
         == AssociateDeviceWithApplicationUser(moved + InsertMiddle + deviceUuid, user).innerBody
  {
    assert (user + InsertMiddle + moved) + InsertMiddle + deviceUuid
        == user + InsertMiddle + (moved + InsertMiddle + deviceUuid);
  }

  /** Nothing is escaped: in the query text the quoted literal holds only the
      part of the name before its first quote, and the rest of the name
      follows the closing quote as SQL. */
  lemma UuidQueryInjection(pre: string, post: string)
    requires '\'' !in pre
    ensures var sql := Strip("<sql>" + UuidQueryHead, "</sql>", GetApplicationUserUuid(pre + "'" + post).innerBody);
      sql.Some? && SplitAt(sql.value, '\'') == Some((pre, post + "'"))
  {
    var name := pre + "'" + post;
    assert GetApplicationUserUuid(name).innerBody == "<sql>" + UuidQueryHead + (pre + "'" + (post + "'")) + "</sql>";
    StripWrapped("<sql>" + UuidQueryHead, pre + "'" + (post + "'"), "</sql>");
    SplitAtFirst(pre, '\'', post + "'");
  }

  // ---------------------------------------------------------------------
  // The response: unwrapping the result and choosing what is thrown
  // ---------------------------------------------------------------------

  const EnvelopeKey := "soapenv:Envelope"
  const BodyKey := "soapenv:Body"
  const FaultKey := "soapenv:Fault"

  function ResponseKey(methodType: string): string {
    "ns:" + methodType + "Response"
  }

  /** The outcome of the POST: the body of a successful response, or a
      rejection carrying the error body when the server answered. */
  datatype Posted = Responded(data: string) | Rejected(message: string, response: ResponseBody)

  /** The outcome of parsing XML text. */
  datatype Parsed = Tree(json: JVal) | Malformed(message: string)

  /** What `run` throws: a plain value (the fault string) or an error object. */
  datatype Thrown = ThrownValue(value: JVal) | ThrownError(error: JsError)

  /** How `run` completes. */
  datatype Completion = Returned(value: JVal) | Threw(thrown: Thrown)

  /** The keys from the parsed response to the operation's response element. */
  function ResponsePath(methodType: string): seq<string> {
    [EnvelopeKey, BodyKey, ResponseKey(methodType)]
  }

  /** The try block of `run`: the value it returns, or what it throws. */
  function Attempt(methodType: string, entity: string, posted: Posted, parse: string -> Parsed): Result<JVal> {
    match posted
    case Rejected(message, response) => Err(TransportError(message, response))
    case Responded(data) =>
      match parse(data)
      case Malformed(message) => Err(ParseError(message))
      case Tree(json) =>
        var nsResponse :- Path(json, ResponsePath(methodType));
        var ret :- Get(nsResponse, "return");
        var typed :- Get(ret, entity);
        Ok(if Truthy(typed) then typed else ret)
  }

  /** The catch block of `run`: read the fault string out of the error body;
      whatever that throws is thrown instead. */
  function Recover(e: JsError, parse: string -> Parsed): Thrown {
    if e.TransportError? && e.response.Body? then
      match parse(e.response.data)
      case Malformed(message) => ThrownError(ParseError(message))
      case Tree(json) =>
        match Path(json, [EnvelopeKey, BodyKey, FaultKey, "faultstring"])
        case Ok(faultString) => ThrownValue(faultString)
        case Err(secondary) => ThrownError(secondary)
    else
      // `e.response` is undefined, so reading `e.response.data` throws
      ThrownError(TypeError("data"))
  }

  /** The completion of `run(verb, entity, innerBody)` given the outcome of
      the POST and the parser. */
  function Respond(verb: string, entity: string, posted: Posted, parse: string -> Parsed): (r: Completion)
    ensures r.Returned? ==> posted.Responded? && !Nullish(r.value)
    ensures posted.Rejected? ==> r.Threw?
    ensures r.Threw? && r.thrown.ThrownError? ==> !r.thrown.error.TransportError?
  {
    match Attempt(MethodType(verb, entity), entity, posted, parse)
    case Ok(v) => Returned(v)
    case Err(e) => Threw(Recover(e, parse))
  }

  /** `return[type] || return`, read off the tree: the child named after the
      entity when `return` is an object holding a truthy one, `return`
      itself otherwise. */
  function Unwrapped(ret: JVal, entity: string): JVal {
    if HasChild(ret, entity) && Truthy(ret.fields[entity]) then ret.fields[entity] else ret
  }

  /** A chained read splits at any point: when the first part succeeds, with
      any value, the rest continues from that value; when it throws, the whole
      read throws the same error. */
  lemma {:induction false} PathAppend(v: JVal, a: seq<string>, b: seq<string>)
    ensures Path(v, a).Ok? ==> Path(v, a + b) == Path(Path(v, a).value, b)
    ensures Path(v, a).Err? ==> Path(v, a + b) == Path(v, a)
    decreases |a|
  {
    if a != [] {
      assert (a + b)[0] == a[0] && (a + b)[1..] == a[1..] + b;
      var g := Get(v, a[0]);
      if g.Ok? {
        PathAppend(g.value, a[1..], b);
      }
    } else {
      assert a + b == b;
    }
  }

  /** On a successful response whose tree holds a `return` element that is
      not null under Envelope / Body / ns:{methodType}Response, `run`
      returns the child named after the entity if it is truthy and the whole
      `return` element otherwise. */
  lemma UnwrapOnSuccess(verb: string, entity: string, data: string, parse: string -> Parsed,
                        nsResponse: JVal, ret: JVal)
    requires parse(data).Tree?
    requires At(parse(data).json, ResponsePath(MethodType(verb, entity)), nsResponse)
    requires HasChild(nsResponse, "return") && nsResponse.fields["return"] == ret
    requires !Nullish(ret)
    ensures Respond(verb, entity, Responded(data), parse) == Returned(Unwrapped(ret, entity))
  {
    PathDefined(parse(data).json, ResponsePath(MethodType(verb, entity)), nsResponse);
  }

  /** `run` returns only in the case above: every returned value is the
      unwrapped `return` element of a parsed successful response. */
  lemma ReturnedOnlyOnSuccess(verb: string, entity: string, posted: Posted, parse: string -> Parsed)
    requires Respond(verb, entity, posted, parse).Returned?
    ensures posted.Responded? && parse(posted.data).Tree?
    ensures var json := parse(posted.data).json;
      var keys := ResponsePath(MethodType(verb, entity));
      && Path(json, keys).Ok?
      && At(json, keys, Path(json, keys).value)
      && HasChild(Path(json, keys).value, "return")
      && !Nullish(Path(json, keys).value.fields["return"])
      && Respond(verb, entity, posted, parse).value
         == Unwrapped(Path(json, keys).value.fields["return"], entity)
  {
    var json := parse(posted.data).json;
    var keys := ResponsePath(MethodType(verb, entity));
    var nsResponse := Path(json, keys).value;
    PathDefined(json, keys, nsResponse);
  }

  /** There is no special case for a `row` field: a `return` object with rows
      but no child named after the entity is returned whole. */
  lemma RowsReturnedWhole(verb: string, entity: string, data: string, parse: string -> Parsed,
                          nsResponse: JVal, rows: JVal)
    requires parse(data).Tree?
    requires At(parse(data).json, ResponsePath(MethodType(verb, entity)), nsResponse)
    requires HasChild(nsResponse, "return")
    requires nsResponse.fields["return"] == JObj(map["row" := rows])
    requires entity != "row"
    ensures Respond(verb, entity, Responded(data), parse) == Returned(JObj(map["row" := rows]))
  {
    UnwrapOnSuccess(verb, entity, data, parse, nsResponse, JObj(map["row" := rows]));
  }

  /** A failure anywhere on the success path (unparsable body, missing
      element) reaches the catch block with an error that has no `response`,
      so what is thrown is the TypeError of reading `e.response.data`. */
  lemma SuccessPathFailureThrowsTypeError(verb: string, entity: string, data: string, parse: string -> Parsed)
    requires Respond(verb, entity, Responded(data), parse).Threw?
    ensures Respond(verb, entity, Responded(data), parse) == Threw(ThrownError(TypeError("data")))
  {
  }

  /** A rejection whose error body parses and holds a non-null
      Envelope / Body / Fault element throws that fault's `faultstring`,
      which is `undefined` when the fault has none. */
  lemma ThrowsFaultString(verb: string, entity: string, message: string, data: string,
                          parse: string -> Parsed, fault: JVal)
    requires parse(data).Tree?
    requires At(parse(data).json, [EnvelopeKey, BodyKey, FaultKey], fault)
    requires !Nullish(fault)
    ensures Respond(verb, entity, Rejected(message, Body(data)), parse)
         == Threw(ThrownValue(if HasChild(fault, "faultstring") then fault.fields["faultstring"] else JUndefined))
  {
    var json := parse(data).json;
    PathDefined(json, [EnvelopeKey, BodyKey, FaultKey], fault);
    PathAppend(json, [EnvelopeKey, BodyKey, FaultKey], ["faultstring"]);
    assert [EnvelopeKey, BodyKey, FaultKey] + ["faultstring"] == [EnvelopeKey, BodyKey, FaultKey, "faultstring"];
  }

  /** The fault of an unknown item. */
  lemma ItemNotFoundExample(verb: string, entity: string, message: string, data: string,
                            parse: string -> Parsed)
    requires parse(data) == Tree(JObj(map[EnvelopeKey := JObj(map[BodyKey := JObj(map[FaultKey :=
                               JObj(map["faultcode" := JStr("soapenv:Server"),
                                        "faultstring" := JStr("Item not found")])])])]))
    ensures Respond(verb, entity, Rejected(message, Body(data)), parse)
         == Threw(ThrownValue(JStr("Item not found")))
  {
    var fault := JObj(map["faultcode" := JStr("soapenv:Server"), "faultstring" := JStr("Item not found")]);
    var body := JObj(map[FaultKey := fault]);
    var envelope := JObj(map[BodyKey := body]);
    assert At(fault, [], fault);
    assert At(body, [FaultKey], fault) by { assert [FaultKey][1..] == []; }
    assert At(envelope, [BodyKey, FaultKey], fault) by { assert [BodyKey, FaultKey][1..] == [FaultKey]; }
    assert At(parse(data).json, [EnvelopeKey, BodyKey, FaultKey], fault) by {
      assert [EnvelopeKey, BodyKey, FaultKey][1..] == [BodyKey, FaultKey];
    }
    ThrowsFaultString(verb, entity, message, data, parse, fault);
  }

  /** Without a fault to report, the secondary error is thrown and never the
      transport error: a rejection without a response throws the TypeError of
      reading `e.response.data`, an unparsable error body throws the parse
      error, and a parsed body without a fault element throws the TypeError
      of the read that failed. */
  lemma ThrowsSecondaryError(verb: string, entity: string, message: string, response: ResponseBody,
                             parse: string -> Parsed)
    ensures var r := Respond(verb, entity, Rejected(message, response), parse);
      && (response.NoResponse? ==> r == Threw(ThrownError(TypeError("data"))))
      && (response.Body? && parse(response.data).Malformed? ==>
            r == Threw(ThrownError(ParseError(parse(response.data).message))))
      && (response.Body? && parse(response.data).Tree?
          && (forall fault :: At(parse(response.data).json, [EnvelopeKey, BodyKey, FaultKey], fault) ==> Nullish(fault)) ==>
            r.Threw? && r.thrown.ThrownError? && r.thrown.error.TypeError?
            && r.thrown.error.property in [EnvelopeKey, BodyKey, FaultKey, "faultstring"])
  {
    if response.Body? && parse(response.data).Tree? {
      var json := parse(response.data).json;
      var faultPath := [EnvelopeKey, BodyKey, FaultKey];
      if forall fault :: At(json, faultPath, fault) ==> Nullish(fault) {
        PathAppend(json, faultPath, ["faultstring"]);
        assert faultPath + ["faultstring"] == [EnvelopeKey, BodyKey, FaultKey, "faultstring"];
        var p := Path(json, faultPath);
        if p.Ok? && !Nullish(p.value) {
          PathDefined(json, faultPath, p.value);
          assert false;
        }
      }
    }
  }
}
