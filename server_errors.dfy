/**
  `mapServerErrorsToRHF`: turns a caught request error into a record of
  field messages. The response body is classified once into one of three
  shapes: an `errors` object whose entries become field messages, a
  `message` that becomes the `_global` entry, or anything else, which gives
  an empty record.
*/
module ServerErrors {

  import opened Js
  import ZodErrorMap

  /** `err?.response?.data` */
  function ResponseData(err: Value): Value {
    Get(Get(err, "response"), "data")
  }

  /** The three shapes of a failed response body. */
  datatype ServerErrorBody =
    | FieldErrors(entries: map<string, Value>)
    | GlobalMessage(message: Value)
    | Unrecognized

  lemma NatToStringInjectiveAll()
    ensures forall m: nat, n: nat {:trigger NatToString(m), NatToString(n)} ::
      NatToString(m) == NatToString(n) ==> m == n
  {
    forall m: nat, n: nat | NatToString(m) == NatToString(n) ensures m == n {
      NatToStringInjective(m, n);
    }
  }

  /** `Object.keys(a)` with `a[k]` for an array: its indices in decimal. */
  function IndexEntries(items: seq<Value>): (m: map<string, Value>)
    ensures forall i :: 0 <= i < |items| ==> NatToString(i) in m && m[NatToString(i)] == items[i]
    ensures forall k :: k in m ==> exists i :: 0 <= i < |items| && k == NatToString(i)
  {
    NatToStringInjectiveAll();
    map i | 0 <= i < |items| :: NatToString(i) := items[i]
  }

  /** `Object.keys(v)` with `v[k]`, for a value whose `typeof` is `'object'` and that is not `null`. */
  function OwnEntries(v: Value): map<string, Value>
    requires v.Obj? || v.Arr?
  {
    if v.Obj? then v.fields else IndexEntries(v.items)
  }

  /** Which shape the response body of `err` has. */
  function Classify(err: Value): ServerErrorBody {
    var data := ResponseData(err);
    var errors := Get(data, "errors");
    var message := Get(data, "message");
    if !Truthy(data) then Unrecognized
    else if Truthy(errors) && IsObjectType(errors) then FieldErrors(OwnEntries(errors))
    else if Truthy(message) then GlobalMessage(message)
    else Unrecognized
  }

  /** One entry of `errors` as a message: an array joined with single spaces, anything else through `String`. */
  function Render(v: Value): string {
    if v.Arr? then Join(v.items, " ") else ToString(v)
  }

  /** The record a classified body gives. */
  function RecordOf(body: ServerErrorBody): map<string, string> {
    match body
    case FieldErrors(entries) => map k | k in entries :: Render(entries[k])
    case GlobalMessage(message) => map[ZodErrorMap.Global := ToString(message)]
    case Unrecognized => map[]
  }

  /** The record `mapServerErrorsToRHF(err)` returns. */
  function ServerErrorMap(err: Value): map<string, string> {
    RecordOf(Classify(err))
  }

  /** `mapServerErrorsToRHF`, with its early returns and its loop over the keys of `errors`. */
  method MapServerErrorsToRhf(err: Value) returns (out: map<string, string>)
    ensures out == ServerErrorMap(err)
  {
    out := map[];
    var data := ResponseData(err);
    if !Truthy(data) {
      return;
    }
    var errors := Get(data, "errors");
    if Truthy(errors) && IsObjectType(errors) {
      var entries := OwnEntries(errors);
      var keys := entries.Keys;
      while keys != {}
        invariant keys <= entries.Keys
        invariant out == map k | k in entries.Keys - keys :: Render(entries[k])
        decreases keys
      {
        var k :| k in keys;
        out := out[k := Render(entries[k])];
        keys := keys - {k};
      }
      assert entries.Keys - keys == entries.Keys;
      return;
    }
    var message := Get(data, "message");
    if Truthy(message) {
      out := out[ZodErrorMap.Global := ToString(message)];
    }
  }

  /** Calling the mapper twice on the same error gives equal records: it neither keeps nor changes state. */
  method MapTwice(err: Value) returns (first: map<string, string>, second: map<string, string>)
    ensures first == second == ServerErrorMap(err)
  {
    first := MapServerErrorsToRhf(err);
    second := MapServerErrorsToRhf(err);
  }

  /** Without response data the record is empty. */
  lemma NoDataGivesEmptyRecord(err: Value)
    requires !Truthy(ResponseData(err))
    ensures ServerErrorMap(err) == map[]
  {
  }

  /** An `errors` object gives a record with exactly its keys, each entry rendered; `message` is then ignored. */
  lemma ErrorsObjectRecord(err: Value)
    requires Truthy(ResponseData(err))
    requires Get(ResponseData(err), "errors").Obj?
    ensures var fields := Get(ResponseData(err), "errors").fields;
      ServerErrorMap(err).Keys == fields.Keys
      && forall k :: k in fields ==> ServerErrorMap(err)[k] == Render(fields[k])
  {
  }

  /** An empty `errors` object gives an empty record even when the body carries a message. */
  lemma EmptyErrorsIgnoreMessage(err: Value)
    requires Truthy(ResponseData(err))
    requires Get(ResponseData(err), "errors") == Obj(map[])
    ensures ServerErrorMap(err) == map[]
  {
  }

  /** An `errors` array is an object too: its entries are filed under their decimal indices. */
  lemma ErrorsArrayRecord(err: Value)
    requires Truthy(ResponseData(err))
    requires Get(ResponseData(err), "errors").Arr?
    ensures var items := Get(ResponseData(err), "errors").items;
      (forall i :: 0 <= i < |items| ==> NatToString(i) in ServerErrorMap(err)
                                         && ServerErrorMap(err)[NatToString(i)] == Render(items[i]))
      && forall k :: k in ServerErrorMap(err) ==> exists i :: 0 <= i < |items| && k == NatToString(i)
  {
  }

  /** Without an `errors` object, a truthy `message` gives exactly `{ _global: String(message) }`. */
  lemma MessageGivesGlobal(err: Value)
    requires Truthy(ResponseData(err))
    requires var errors := Get(ResponseData(err), "errors"); !(Truthy(errors) && IsObjectType(errors))
    requires Truthy(Get(ResponseData(err), "message"))
    ensures ServerErrorMap(err) == map[ZodErrorMap.Global := ToString(Get(ResponseData(err), "message"))]
  {
  }

  /** With neither an `errors` object nor a truthy `message` the record is empty. */
  lemma NeitherGivesEmpty(err: Value)
    requires var errors := Get(ResponseData(err), "errors"); !(Truthy(errors) && IsObjectType(errors))
    requires !Truthy(Get(ResponseData(err), "message"))
    ensures ServerErrorMap(err) == map[]
  {
  }

  /** An entry that is an array of strings is those strings joined by single spaces. */
  lemma {:induction false} ArrayEntryJoinedBySpaces(parts: seq<string>)
    ensures Render(Arr(seq(|parts|, i requires 0 <= i < |parts| => Str(parts[i])))) == JoinStrings(parts, " ")
  {
    JoinOfStrings(parts, " ");
  }

  /** An error as the HTTP client delivers it: the parsed body under `response.data`. */
  function ErrorWithBody(body: Value): Value {
    Obj(map["response" := Obj(map["data" := body])])
  }

  /** `{ errors: { email: "already used" } }` gives `{ email: "already used" }`. */
  lemma FieldErrorExample()
    ensures ServerErrorMap(ErrorWithBody(Obj(map["errors" := Obj(map["email" := Str("already used")])])))
         == map["email" := "already used"]
  {
    var entries := map["email" := Str("already used")];
    assert RecordOf(FieldErrors(entries)) == map["email" := "already used"];
  }

  /** `{ errors: { phone: ["too short", "invalid"] } }` gives `{ phone: "too short invalid" }`. */
  lemma ArrayErrorExample()
    ensures ServerErrorMap(ErrorWithBody(Obj(map["errors" := Obj(map["phone" := Arr([Str("too short"), Str("invalid")])])])))
         == map["phone" := "too short invalid"]
  {
    var items := [Str("too short"), Str("invalid")];
    assert items[1..] == [Str("invalid")];
    assert Join([Str("invalid")], " ") == "invalid";
    assert Render(Arr(items)) == "too short" + " " + "invalid";
    assert "too short" + " " + "invalid" == "too short invalid";
    var entries := map["phone" := Arr(items)];
    var body := Obj(map["errors" := Obj(entries)]);
    assert ResponseData(ErrorWithBody(body)) == body;
    assert Classify(ErrorWithBody(body)) == FieldErrors(entries);
    assert RecordOf(FieldErrors(entries)) == map["phone" := "too short invalid"];
  }

  /** `{ message: "server unavailable" }` gives `{ _global: "server unavailable" }`. */
  lemma MessageExample()
    ensures ServerErrorMap(ErrorWithBody(Obj(map["message" := Str("server unavailable")])))
         == map[ZodErrorMap.Global := "server unavailable"]
  {
  }
}
