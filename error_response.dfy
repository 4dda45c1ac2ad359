/**
 * `buildErrorResponse` from supabase/functions/_shared/utils.ts: turn whatever
 * was thrown or returned as an error into a JSON response `{"error": message}`
 * with the given status.
 */
module ErrorResponse {
  import opened Wrappers
  import opened JsValues
  import opened Http

  /**
   * The message the error is reported under, stated by cases in priority
   * order rather than as the sequence of overwrites the handler performs:
   * a non-object is printed with String(); an object (null included: its
   * typeof is "object") with a truthy `message` property reports that
   * property; any other object reports its JSON text, and when serialising
   * it throws, what the earlier steps set survives: an Error's own message,
   * or else String(error).
   */
  function ErrorMessage(error: JsValue): (m: string)
    ensures TypeOf(error) != "object" ==> m == StringOf(error)
    ensures error.Str? ==> m == error.s
    ensures error.ErrorObj? && error.message != "" ==> m == error.message
    ensures error.Obj? && Truthy(Lookup(error.props, "message")) ==> m == StringOf(Lookup(error.props, "message"))
    ensures error.Obj? && !Truthy(Lookup(error.props, "message")) && Stringify(error).Text? ==> m == Stringify(error).text
  {
    if TypeOf(error) != "object" then StringOf(error)
    else if error != Null && Truthy(Get(error, "message")) then StringOf(Get(error, "message"))
    else match Stringify(error)
      case Text(json) => json
      case _ =>
        match error
        case ErrorObj(_, message, _) => message
        case _ => StringOf(error)
  }

  /** The text `{"error":"…"}` that JSON.stringify gives for `{ error: message }`. */
  function ErrorBody(message: string): string
  {
    "{\"error\":" + Quote(message) + "}"
  }

  /**
   * The error response: the status passed in, a JSON content type, and a
   * body from which the single `error` member decodes back to the message.
   */
  function ErrorResponseFor(error: JsValue, status: int): (r: Response)
    ensures r.status == status
    ensures r.contentType == Some("application/json")
    ensures r.body.Some? && ParseErrorBody(r.body.value) == Some(ErrorMessage(error))
  {
    ParseErrorBodyRoundTrip(ErrorMessage(error));
    Response(status, Some("application/json"), Some(ErrorBody(ErrorMessage(error))))
  }

  /**
   * Reads a body of the form `{"error":"…"}` back: the decoded string member,
   * or None when the text is not a one-member object with key "error".
   */
  function ParseErrorBody(body: string): Option<string>
  {
    var open := "{\"error\":\"";
    if |body| >= |open| + 2 && body[..|open|] == open && body[|body| - 2..] == "\"}" then
      Unescape(body[|open|..|body| - 2])
    else None
  }

  lemma ParseErrorBodyRoundTrip(message: string)
    ensures ParseErrorBody(ErrorBody(message)) == Some(message)
  {
    var open := "{\"error\":\"";
    var body := ErrorBody(message);
    assert body == open + Escape(message) + "\"}";
    assert body[|open|..|body| - 2] == Escape(message);
    UnescapeEscape(message);
  }

  /** The body JSON.stringify writes for `{ error: message }` is exactly ErrorBody(message). */
  lemma ErrorBodyIsStringified(message: string)
    ensures Stringify(Obj([Prop("error", Str(message))])) == Text(ErrorBody(message))
  {
    var q := Quote(message);
    assert Stringify(Str(message)) == Text(q);
    StringifySingleProperty("error", Str(message));
    QuotedErrorKey();
    assert "{" + "\"error\"" + ":" + q + "}" == "{\"error\":" + q + "}";
  }

  /** An object with one serialisable property is serialised as `{"key":value}`. */
  lemma StringifySingleProperty(key: string, v: JsValue)
    requires Stringify(v).Text?
    ensures Stringify(Obj([Prop(key, v)])) == Text("{" + Quote(key) + ":" + Stringify(v).text + "}")
  {
    var props := [Prop(key, v)];
    var parts := seq(|props|, i requires 0 <= i < |props| => Stringify(props[i].value));
    assert Stringify(Obj(props)) == StringifyObject(props, parts);
    assert parts == [Stringify(v)];
    SingleMember(props[0], parts[0]);
    var member := Quote(key) + ":" + Stringify(v).text;
    assert Join([member]) == member;
  }

  lemma SingleMember(p: Prop, part: Json)
    requires part.Text?
    ensures Members([p], [part]) == Some([Quote(p.key) + ":" + part.text])
  {
    assert [p][1..] == [] && [part][1..] == [];
    assert Members([p][1..], [part][1..]) == Some([]);
    assert [Quote(p.key) + ":" + part.text] + [] == [Quote(p.key) + ":" + part.text];
  }

  lemma QuotedErrorKey()
    ensures Quote("error") == "\"error\""
  {
  }

  /**
   * The handler as written: `message` starts as String(error), an Error
   * instance replaces it by its message, and an object then replaces it by its
   * truthy `message` property or by its JSON text, a throw from
   * JSON.stringify leaving it as it was.
   */
  method BuildErrorResponse(error: JsValue, status: int) returns (r: Response)
    ensures r == ErrorResponseFor(error, status)
  {
    var message := StringOf(error);
    if error.ErrorObj? {
      message := error.message;
    }
    if TypeOf(error) == "object" {
      if error != Null && Truthy(Get(error, "message")) {
        message := StringOf(Get(error, "message"));
      } else {
        var json := Stringify(error);
        if json.Text? {
          message := json.text;
        }
      }
    }
    var body := Stringify(Obj([Prop("error", Str(message))]));
    ErrorBodyIsStringified(message);
    r := Response(status, Some("application/json"), Some(body.text));
  }

  // ---------------------------------------------------------------------
  // What the derivation gives for the kinds of error the handlers pass in
  // ---------------------------------------------------------------------

  /** A thrown or passed string is reported verbatim, e.g. "Unauthorized". */
  lemma MessageOfString(s: string)
    ensures ErrorMessage(Str(s)) == s
  {
  }

  /** null has typeof "object" but is falsy, so it is serialised: "null". */
  lemma MessageOfNull()
    ensures ErrorMessage(Null) == "null"
  {
  }

  /** An Error with a non-empty message is reported by that message alone, without its name. */
  lemma MessageOfError(name: string, message: string, fields: seq<Prop>)
    requires message != ""
    ensures ErrorMessage(ErrorObj(name, message, fields)) == message
  {
  }

  /**
   * An Error with an empty message is serialised, which shows only its own
   * enumerable fields; if that throws, the empty message stays.
   */
  lemma MessageOfErrorWithoutMessage(name: string, fields: seq<Prop>)
    ensures var e := ErrorObj(name, "", fields);
      ErrorMessage(e) == (if HasBigInt(e) then "" else Stringify(e).text)
  {
  }

  /** A plain object with a truthy `message` property reports String() of that property. */
  lemma MessageOfObjectWithMessage(props: seq<Prop>)
    requires Truthy(Lookup(props, "message"))
    ensures ErrorMessage(Obj(props)) == StringOf(Lookup(props, "message"))
  {
    var e := Obj(props);
    assert TypeOf(e) == "object" && e != Null;
    assert Get(e, "message") == Lookup(props, "message");
  }

  /**
   * A plain object without a truthy `message` reports its JSON text, or
   * "[object Object]" when serialising it throws.
   */
  lemma MessageOfObjectWithoutMessage(props: seq<Prop>)
    requires !Truthy(Lookup(props, "message"))
    ensures ErrorMessage(Obj(props)) ==
      (if HasBigInt(Obj(props)) then "[object Object]" else Stringify(Obj(props)).text)
  {
  }
}
