/**
 How a handler builds the request message: body, then path parameters, then the query string minus the
 fields its filter lists, with an early return at the first failure.
 */
module RequestAssembly {
  import opened Sequences
  import opened Options
  import opened QueryFilter
  import opened RouteTable
  import opened RouteChecks
  import opened Dispatch
  import opened RouteDispatch

  /** A field of the message, named from the outermost message inwards. */
  type Field = seq<string>

  type Message = map<Field, seq<string>>

  /** One key of the parsed form with its values. */
  datatype Entry = Entry(key: Field, values: seq<string>)

  /** What a handler is given. `body` is None when decoding fails, `form` is None when parsing fails; the form
      lists its keys in the order one iteration over them happens to take. */
  datatype Request = Request(body: Option<Message>, params: map<string, string>, form: Option<seq<Entry>>)

  datatype Outcome =
    | Built(message: Message)
    | BadBody
    | MissingParameter(name: string)
    | BadForm
    | BadQuery

  /** Whether a query key names a field of the message and its values parse. */
  type Schema = (Field, seq<string>) -> bool

  // ----- The three stages -----

  function Under(name: string, m: Message): Message {
    map k | k in (set j | j in m :: [name] + j) :: m[k[1..]]
  }

  function FromBody(b: Body, decoded: Option<Message>): Option<Message> {
    match b
    case NoBody => Some(map[])
    case WholeBody => decoded
    case FieldBody(f) => if decoded.None? then None else Some(Under(f, decoded.value))
  }

  function AddParameters(m: Message, lookups: seq<string>, params: map<string, string>): Outcome
    decreases |lookups|
  {
    if lookups == [] then Built(m)
    else if lookups[0] !in params then MissingParameter(lookups[0])
    else AddParameters(m[[lookups[0]] := [params[lookups[0]]]], lookups[1..], params)
  }

  /** `PopulateQueryParameters`. */
  function AddQuery(m: Message, form: seq<Entry>, filter: DoubleArray, schema: Schema): Outcome
    requires |filter.base| == |filter.check|
    decreases |form|
  {
    if form == [] then Built(m)
    else if HasCommonPrefix(filter, form[0].key) then AddQuery(m, form[1..], filter, schema)
    else if !schema(form[0].key, form[0].values) then BadQuery
    else AddQuery(m[form[0].key := form[0].values], form[1..], filter, schema)
  }

  function Assemble(h: Handler, req: Request, schema: Schema): Outcome {
    var m := FromBody(h.body, req.body);
    if m.None? then BadBody
    else
      var p := AddParameters(m.value, h.lookups, req.params);
      if !p.Built? || h.filter.None? then p
      else if req.form.None? then BadForm
      else AddQuery(p.message, req.form.value, Filter(h.filter.value), schema)
  }

  /** The handlers as written: a message filled in field by field, left at the first failure. */
  method Build(h: Handler, req: Request, schema: Schema) returns (o: Outcome)
    ensures o == Assemble(h, req, schema)
  {
    var body := FromBody(h.body, req.body);
    if body.None? {
      return BadBody;
    }
    var m := body.value;
    var i := 0;
    while i < |h.lookups|
      invariant 0 <= i <= |h.lookups|
      invariant AddParameters(m, h.lookups[i..], req.params) == AddParameters(body.value, h.lookups, req.params)
    {
      var name := h.lookups[i];
      assert h.lookups[i..][1..] == h.lookups[i + 1..];
      if name !in req.params {
        return MissingParameter(name);
      }
      m := m[[name] := [req.params[name]]];
      i := i + 1;
    }
    if h.filter.None? {
      return Built(m);
    }
    if req.form.None? {
      return BadForm;
    }
    var filter, form := Filter(h.filter.value), req.form.value;
    ghost var start := m;
    i := 0;
    while i < |form|
      invariant 0 <= i <= |form|
      invariant AddQuery(m, form[i..], filter, schema) == AddQuery(start, form, filter, schema)
    {
      assert form[i..][1..] == form[i + 1..];
      if !HasCommonPrefix(filter, form[i].key) {
        if !schema(form[i].key, form[i].values) {
          return BadQuery;
        }
        m := m[form[i].key := form[i].values];
      }
      i := i + 1;
    }
    return Built(m);
  }

  // ----- The query read against a plain list of names -----

  predicate Listed(names: seq<string>, key: Field) {
    key != [] && key[0] in names
  }

  function AddPlain(m: Message, form: seq<Entry>, names: seq<string>, schema: Schema): (o: Outcome)
    ensures o.Built? || o.BadQuery?
    decreases |form|
  {
    if form == [] then Built(m)
    else if Listed(names, form[0].key) then AddPlain(m, form[1..], names, schema)
    else if !schema(form[0].key, form[0].values) then BadQuery
    else AddPlain(m[form[0].key := form[0].values], form[1..], names, schema)
  }

  /** The trie may be replaced by the list of names it encodes. */
  lemma {:induction false} QueryIsPlain(m: Message, form: seq<Entry>, names: seq<string>, schema: Schema)
    requires Distinct(names)
    ensures AddQuery(m, form, Filter(names), schema) == AddPlain(m, form, names, schema)
    decreases |form|
  {
    if form != [] {
      FilterIsSet(names, form[0].key);
      QueryIsPlain(m, form[1..], names, schema);
      QueryIsPlain(m[form[0].key := form[0].values], form[1..], names, schema);
    }
  }

  function Get(m: Message, k: Field): Option<seq<string>> {
    if k in m then Some(m[k]) else None
  }

  /** What the query says about one field. */
  function Said(form: seq<Entry>, names: seq<string>, k: Field): Option<seq<string>>
    decreases |form|
  {
    if form == [] || Listed(names, k) then None
    else if form[0].key == k then Some(form[0].values)
    else Said(form[1..], names, k)
  }

  ghost predicate DistinctKeys(form: seq<Entry>) {
    forall i, j | 0 <= i < j < |form| :: form[i].key != form[j].key
  }

  lemma {:induction false} SaidIsMember(form: seq<Entry>, names: seq<string>, k: Field, v: seq<string>)
    requires DistinctKeys(form)
    ensures Said(form, names, k) == Some(v) <==> !Listed(names, k) && Entry(k, v) in form
    decreases |form|
  {
    if form != [] {
      SaidIsMember(form[1..], names, k, v);
      assert form == [form[0]] + form[1..];
    }
  }

  /** Reading the query overrides a field with what the query says about it, and leaves the others. */
  lemma {:induction false} PlainAt(m: Message, form: seq<Entry>, names: seq<string>, schema: Schema, k: Field)
    requires DistinctKeys(form) && AddPlain(m, form, names, schema).Built?
    ensures Get(AddPlain(m, form, names, schema).message, k) ==
            if Said(form, names, k).Some? then Said(form, names, k) else Get(m, k)
    decreases |form|
  {
    if form != [] {
      var m' := if Listed(names, form[0].key) then m else m[form[0].key := form[0].values];
      PlainAt(m', form[1..], names, schema, k);
      if form[0].key == k && Said(form[1..], names, k).Some? {
        SaidIsMember(form[1..], names, k, Said(form[1..], names, k).value);
      }
    }
  }

  ghost predicate Fits(en: Entry, names: seq<string>, schema: Schema) {
    Listed(names, en.key) || schema(en.key, en.values)
  }

  /** Reading fails exactly when some entry outside the list does not fit. */
  lemma {:induction false} PlainBuiltIff(m: Message, form: seq<Entry>, names: seq<string>, schema: Schema)
    ensures AddPlain(m, form, names, schema).Built? <==> forall en | en in form :: Fits(en, names, schema)
    decreases |form|
  {
    if form != [] {
      PlainBuiltIff(m, form[1..], names, schema);
      PlainBuiltIff(m[form[0].key := form[0].values], form[1..], names, schema);
      assert form == [form[0]] + form[1..];
      assert form[0] in form;
    }
  }

  lemma SameMessage(a: Message, b: Message)
    requires forall k :: Get(a, k) == Get(b, k)
    ensures a == b
  {
    forall k ensures k in a <==> k in b {
      assert Get(a, k) == Get(b, k);
    }
    forall k | k in a ensures a[k] == b[k] {
      assert Get(a, k) == Get(b, k);
    }
  }

  // ----- What the query cannot do -----

  /** A field a handler takes from the path. */
  lemma {:induction false} ParameterAt(m: Message, lookups: seq<string>, params: map<string, string>, k: Field)
    requires Distinct(lookups) && AddParameters(m, lookups, params).Built?
    ensures Get(AddParameters(m, lookups, params).message, k) ==
            if |k| == 1 && k[0] in lookups && k[0] in params then Some([params[k[0]]]) else Get(m, k)
    ensures |k| == 1 && k[0] in lookups ==> k[0] in params
    decreases |lookups|
  {
    if lookups != [] {
      DistinctRest(lookups);
      ParameterAt(m[[lookups[0]] := [params[lookups[0]]]], lookups[1..], params, k);
      assert lookups == [lookups[0]] + lookups[1..];
      if k == [lookups[0]] {
        assert k[0] !in lookups[1..];
      }
      assert |k| == 1 ==> k == [k[0]];
    }
  }

  lemma LookupsDistinct(h: Handler)
    requires |Provided(h)| > 1 ==> Provided(h)[0] != Provided(h)[1]
    requires |Provided(h)| <= 2
    ensures Distinct(Provided(h)) && Distinct(h.lookups)
  {
    if h.body.NoBody? || h.body.WholeBody? {
      assert Provided(h) == h.lookups;
    }
  }

  /** k is one of the fields taken from the path. */
  predicate Parameter(h: Handler, k: Field) {
    |k| == 1 && k[0] in h.lookups
  }

  /** k lies in the one field the body is decoded into. */
  predicate Headed(h: Handler, k: Field) {
    h.body.FieldBody? && k != [] && k[0] == h.body.field
  }

  /** What is in the message before the query is read. */
  lemma StartAt(h: Handler, req: Request, k: Field)
    requires Distinct(h.lookups) && Distinct(Provided(h)) && FromBody(h.body, req.body).Some?
    requires AddParameters(FromBody(h.body, req.body).value, h.lookups, req.params).Built?
    ensures var v := Get(AddParameters(FromBody(h.body, req.body).value, h.lookups, req.params).message, k);
            if Parameter(h, k) then k[0] in req.params && v == Some([req.params[k[0]]])
            else if h.body.WholeBody? then req.body.Some? && v == Get(req.body.value, k)
            else if Headed(h, k) then req.body.Some? && v == Get(req.body.value, k[1..])
            else v == None
  {
    ParameterAt(FromBody(h.body, req.body).value, h.lookups, req.params, k);
    if h.body.FieldBody? {
      UnderAt(h.body.field, req.body.value, k);
      DistinctRest(Provided(h));
      assert Provided(h)[1..] == h.lookups;
    }
  }

  lemma UnderAt(name: string, m: Message, k: Field)
    ensures Get(Under(name, m), k) == if k != [] && k[0] == name then Get(m, k[1..]) else None
  {
    if k != [] && k[0] == name {
      assert k == [name] + k[1..];
    }
    if k in Under(name, m) {
      var j :| j in m && k == [name] + j;
      assert k[1..] == j;
    }
  }

  /** Reading the query, field by field. */
  lemma QueryAt(m: Message, form: seq<Entry>, names: seq<string>, schema: Schema, k: Field, v: seq<string>)
    requires Distinct(names) && DistinctKeys(form) && AddQuery(m, form, Filter(names), schema).Built?
    ensures var found := Get(AddQuery(m, form, Filter(names), schema).message, k);
            && (Listed(names, k) ==> found == Get(m, k))
            && (Get(m, k) == None ==> (found == Some(v) <==> !Listed(names, k) && Entry(k, v) in form))
  {
    QueryIsPlain(m, form, names, schema);
    PlainAt(m, form, names, schema, k);
    SaidIsMember(form, names, k, v);
    if Said(form, names, k).Some? {
      SaidIsMember(form, names, k, Said(form, names, k).value);
    }
  }

  /** For every endpoint and every request, whatever the query contains: a path parameter has its path value in the
      finished message; where the body is the whole message, every other field has its value there; and where the body
      is one field of the message, that field is exactly the body. */
  lemma ProvidedFieldsKept(e: Endpoint, req: Request, schema: Schema, k: Field)
    requires Assemble(RowOf(e).handler, req, schema).Built?
    requires req.form.Some? ==> DistinctKeys(req.form.value)
    ensures var h := RowOf(e).handler;
            var v := Get(Assemble(h, req, schema).message, k);
            && (Parameter(h, k) ==> k[0] in req.params && v == Some([req.params[k[0]]]))
            && (!Parameter(h, k) && h.body.WholeBody? ==> req.body.Some? && v == Get(req.body.value, k))
            && (Headed(h, k) ==> !Parameter(h, k) && req.body.Some? && v == Get(req.body.value, k[1..]))
  {
    TableChecked(e);
    var h := RowOf(e).handler;
    LookupsDistinct(h);
    StartAt(h, req, k);
    if Headed(h, k) {
      DistinctRest(Provided(h));
      assert Provided(h)[1..] == h.lookups;
    }
    if h.filter.Some? {
      var p := AddParameters(FromBody(h.body, req.body).value, h.lookups, req.params).message;
      QueryAt(p, req.form.value, h.filter.value, schema, k, []);
    }
  }

  /** Every other field comes from the query, if the endpoint reads it: the field has a value exactly when the form has
      that value under the field's name, and, for a field within a path parameter, never. */
  lemma OtherFieldsFromQuery(e: Endpoint, req: Request, schema: Schema, k: Field, v: seq<string>)
    requires Assemble(RowOf(e).handler, req, schema).Built?
    requires req.form.Some? ==> DistinctKeys(req.form.value)
    requires var h := RowOf(e).handler; !h.body.WholeBody? && !Parameter(h, k) && !Headed(h, k)
    ensures var h := RowOf(e).handler;
            Get(Assemble(h, req, schema).message, k) == Some(v) <==>
            && h.filter.Some? && req.form.Some? && Entry(k, v) in req.form.value
            && (k == [] || k[0] !in h.lookups)
  {
    TableChecked(e);
    var h := RowOf(e).handler;
    LookupsDistinct(h);
    StartAt(h, req, k);
    if h.filter.Some? {
      var p := AddParameters(FromBody(h.body, req.body).value, h.lookups, req.params).message;
      QueryAt(p, req.form.value, h.filter.value, schema, k, v);
    }
  }

  /** The endpoint takes a body that could not be decoded. */
  predicate BodyFails(h: Handler, req: Request) {
    !h.body.NoBody? && req.body.None?
  }

  /** Parameter i is missing, and none before it is. */
  ghost predicate MissesFirst(h: Handler, req: Request, i: int) {
    0 <= i < |h.lookups| && h.lookups[i] !in req.params && forall j | 0 <= j < i :: h.lookups[j] in req.params
  }

  lemma {:induction false} FirstMissing(m: Message, lookups: seq<string>, params: map<string, string>, i: nat)
    requires i <= |lookups| && forall j | 0 <= j < i :: lookups[j] in params
    ensures i < |lookups| && lookups[i] !in params ==>
              AddParameters(m, lookups, params) == MissingParameter(lookups[i])
    ensures i == |lookups| ==> AddParameters(m, lookups, params).Built?
    decreases |lookups|
  {
    if i > 0 {
      assert forall j | 0 <= j < i - 1 :: lookups[1..][j] == lookups[j + 1];
      FirstMissing(m[[lookups[0]] := [params[lookups[0]]]], lookups[1..], params, i - 1);
    }
  }

  lemma FindMissing(lookups: seq<string>, params: map<string, string>) returns (i: nat)
    ensures i <= |lookups| && (forall j | 0 <= j < i :: lookups[j] in params)
    ensures i < |lookups| ==> lookups[i] !in params
  {
    i := 0;
    while i < |lookups| && lookups[i] in params
      invariant i <= |lookups| && forall j | 0 <= j < i :: lookups[j] in params
    {
      i := i + 1;
    }
  }

  /** Which way a request goes, for every endpoint: it is turned away for its body exactly when the endpoint takes one
      and decoding failed; failing that, for the first parameter that is missing, if any; failing that, if the endpoint
      reads the query, for a form that could not be parsed or an unlisted entry that does not fit the message; and
      otherwise a message is built. */
  lemma OutcomeIff(e: Endpoint, req: Request, schema: Schema)
    ensures var h := RowOf(e).handler;
            var o := Assemble(h, req, schema);
            var missing := exists x :: x in h.lookups && x !in req.params;
            && (o.BadBody? <==> BodyFails(h, req))
            && (o.MissingParameter? <==> !BodyFails(h, req) && missing)
            && (o.MissingParameter? ==> exists i :: MissesFirst(h, req, i) && o.name == h.lookups[i])
            && (o.BadForm? <==> !BodyFails(h, req) && !missing && h.filter.Some? && req.form.None?)
            && (o.BadQuery? <==>
                  && !BodyFails(h, req) && !missing && h.filter.Some? && req.form.Some?
                  && exists en :: en in req.form.value && !Fits(en, Provided(h), schema))
  {
    TableChecked(e);
    var h := RowOf(e).handler;
    LookupsDistinct(h);
    if !BodyFails(h, req) {
      var start := FromBody(h.body, req.body).value;
      var i := FindMissing(h.lookups, req.params);
      FirstMissing(start, h.lookups, req.params, i);
      if i < |h.lookups| {
        assert MissesFirst(h, req, i) && h.lookups[i] in h.lookups;
      } else if h.filter.Some? && req.form.Some? {
        var p := AddParameters(start, h.lookups, req.params).message;
        QueryIsPlain(p, req.form.value, h.filter.value, schema);
        PlainBuiltIff(p, req.form.value, h.filter.value, schema);
      }
    }
  }

  /** Served requests are never turned away for a missing parameter. */
  lemma ServedNeverMissing(table: seq<Route<Endpoint>>, verb: Verb, path: seq<string>, req: Request, schema: Schema)
    requires Registers(table) && Serve(table, verb, path).Some?
    requires req.params == Serve(table, verb, path).value.params
    ensures !Assemble(RowOf(Serve(table, verb, path).value.route.handler).handler, req, schema).MissingParameter?
  {
    ServedParametersPresent(table, verb, path);
    var e := Serve(table, verb, path).value.route.handler;
    var h := RowOf(e).handler;
    TableChecked(e);
    LookupsDistinct(h);
    var start := FromBody(h.body, req.body);
    if start.Some? {
      NoneMissing(start.value, h.lookups, req.params);
      if h.filter.Some? && req.form.Some? {
        QueryIsPlain(AddParameters(start.value, h.lookups, req.params).message, req.form.value, h.filter.value, schema);
      }
    }
  }

  lemma {:induction false} NoneMissing(m: Message, lookups: seq<string>, params: map<string, string>)
    requires forall x | x in lookups :: x in params
    ensures AddParameters(m, lookups, params).Built?
    decreases |lookups|
  {
    if lookups != [] {
      assert lookups[0] in lookups;
      NoneMissing(m[[lookups[0]] := [params[lookups[0]]]], lookups[1..], params);
    }
  }

  // ----- The order in which the query is read -----

  /** The form is a map, read in no particular order: any two orders of the same entries give the same outcome. */
  lemma PlainOrderIrrelevant(m: Message, a: seq<Entry>, b: seq<Entry>, names: seq<string>, schema: Schema)
    requires DistinctKeys(a) && DistinctKeys(b) && forall en :: en in a <==> en in b
    ensures AddPlain(m, a, names, schema) == AddPlain(m, b, names, schema)
  {
    PlainBuiltIff(m, a, names, schema);
    PlainBuiltIff(m, b, names, schema);
    var x, y := AddPlain(m, a, names, schema), AddPlain(m, b, names, schema);
    if x.Built? && y.Built? {
      forall k ensures Get(x.message, k) == Get(y.message, k) {
        PlainAt(m, a, names, schema, k);
        PlainAt(m, b, names, schema, k);
        SaidAlike(a, b, names, k);
      }
      SameMessage(x.message, y.message);
    }
  }

  lemma SaidAlike(a: seq<Entry>, b: seq<Entry>, names: seq<string>, k: Field)
    requires DistinctKeys(a) && DistinctKeys(b) && forall en :: en in a <==> en in b
    ensures Said(a, names, k) == Said(b, names, k)
  {
    if Said(a, names, k).Some? {
      SaidIsMember(a, names, k, Said(a, names, k).value);
      SaidIsMember(b, names, k, Said(a, names, k).value);
    } else if Said(b, names, k).Some? {
      SaidIsMember(a, names, k, Said(b, names, k).value);
      SaidIsMember(b, names, k, Said(b, names, k).value);
    }
  }

  /** So an endpoint's outcome does not depend on how Go happens to iterate over the form. */
  lemma FormOrderIrrelevant(e: Endpoint, req: Request, other: Request, schema: Schema)
    requires req.form.Some? && other.form.Some? && other == req.(form := other.form)
    requires DistinctKeys(req.form.value) && DistinctKeys(other.form.value)
    requires forall en :: en in req.form.value <==> en in other.form.value
    ensures Assemble(RowOf(e).handler, req, schema) == Assemble(RowOf(e).handler, other, schema)
  {
    TableChecked(e);
    var h := RowOf(e).handler;
    LookupsDistinct(h);
    var body := FromBody(h.body, req.body);
    if body.Some? && h.filter.Some? {
      var p := AddParameters(body.value, h.lookups, req.params);
      if p.Built? {
        QueryIsPlain(p.message, req.form.value, h.filter.value, schema);
        QueryIsPlain(p.message, other.form.value, h.filter.value, schema);
        PlainOrderIrrelevant(p.message, req.form.value, other.form.value, h.filter.value, schema);
      }
    }
  }

  // ----- The two storage listings -----

  const BY_COLLECTION := Handler(NoBody, ["collection"], Some(["collection"]))
  const BY_USER := Handler(NoBody, ["collection", "user_id"], Some(["collection", "user_id"]))

  lemma StorageHandlers()
    ensures RowOf(Services(ListStorageObjects0)).handler == BY_COLLECTION
    ensures RowOf(Services(ListStorageObjects1)).handler == BY_USER
  {
  }

  /** Listing a user's storage objects by path is listing the collection with the user in the query. */
  lemma StorageListingsAgree(collection: string, user: string, query: seq<Entry>, schema: Schema)
    requires DistinctKeys(query) && forall en | en in query :: en.key == [] || en.key[0] != "user_id"
    requires schema(["user_id"], [user])
    ensures Assemble(RowOf(Services(ListStorageObjects1)).handler,
                     Request(None, map["collection" := collection, "user_id" := user], Some(query)), schema)
         == Assemble(RowOf(Services(ListStorageObjects0)).handler,
                     Request(None, map["collection" := collection], Some(query + [Entry(["user_id"], [user])])), schema)
  {
    StorageHandlers();
    var m: Message := map[["collection"] := [collection]];
    ByUserStarts(collection, user, query, schema);
    ByCollectionStarts(collection, query + [Entry(["user_id"], [user])], schema);
    NamingInQuery(m, query, ["user_id"], [user], schema);
  }

  lemma ByUserStarts(collection: string, user: string, form: seq<Entry>, schema: Schema)
    ensures Assemble(BY_USER, Request(None, map["collection" := collection, "user_id" := user], Some(form)), schema) ==
            AddPlain(map[["collection"] := [collection]][["user_id"] := [user]], form, ["collection", "user_id"],
                     schema)
  {
    var names, params := BY_USER.lookups, map["collection" := collection, "user_id" := user];
    var m0: Message := map[["collection"] := [collection]];
    var m1 := m0[["user_id"] := [user]];
    assert names[1..] == ["user_id"] && names[1..][1..] == [];
    assert AddParameters(m0, names[1..], params) == AddParameters(m1, [], params) == Built(m1);
    QueryIsPlain(m1, form, names, schema);
  }

  lemma ByCollectionStarts(collection: string, form: seq<Entry>, schema: Schema)
    ensures Assemble(BY_COLLECTION, Request(None, map["collection" := collection], Some(form)), schema) ==
            AddPlain(map[["collection"] := [collection]], form, ["collection"], schema)
  {
    var names, params := BY_COLLECTION.lookups, map["collection" := collection];
    var m: Message := map[["collection"] := [collection]];
    assert names[1..] == [];
    assert AddParameters(m, [], params) == Built(m);
    QueryIsPlain(m, form, names, schema);
  }

  lemma {:induction false} NamingInQuery(m: Message, query: seq<Entry>, k: Field, v: seq<string>, schema: Schema)
    requires k == ["user_id"] && schema(k, v)
    requires forall en | en in query :: en.key == [] || en.key[0] != "user_id"
    ensures AddPlain(m[k := v], query, ["collection", "user_id"], schema) ==
            AddPlain(m, query + [Entry(k, v)], ["collection"], schema)
    decreases |query|
  {
    var all := query + [Entry(k, v)];
    if query == [] {
      assert all[1..] == [];
    } else {
      var en := query[0];
      assert en in query && all[0] == en && all[1..] == query[1..] + [Entry(k, v)];
      var m' := if Listed(["collection"], en.key) then m else m[en.key := en.values];
      NamingInQuery(m', query[1..], k, v, schema);
      assert m[k := v][en.key := en.values] == m[en.key := en.values][k := v];
    }
  }
}
