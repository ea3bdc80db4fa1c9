/** The script stage: a generator built from an API key, and the way it turns
    the language model's reply into a script object or an exception. The call
    to the service is not modelled; its reply is an abstract `Response`. */
module ScriptGenerator {
  import opened Values

  /** The two exception classes the generator raises. */
  datatype Error = ValueError(message: string) | RuntimeError(message: string)

  datatype Result<+T> = Ok(value: T) | Err(error: Error)

  const MissingKeyMessage := "OpenAI API key is required"
  const ParsePrefix := "Failed to parse script response: "
  const FailurePrefix := "Script generation failed: "
  const InvalidStructure := "Invalid script structure returned"

  /** Python truthiness of an optional key. */
  predicate KeyGiven(key: Option<string>)
  {
    key.Some? && key.value != ""
  }

  /** How the service call and `json.loads` of the reply's stripped text end.
      The handler matches the exception's type, not where it was raised:
      `DecodeFailed` is a `json.JSONDecodeError` raised anywhere in the `try`,
      usually by `json.loads`; `CallFailed` is any other exception raised
      before the text is decoded, by the call or by reading the reply;
      `Decoded` is the value the text decodes to. */
  datatype Response =
    | CallFailed(message: string)
    | DecodeFailed(message: string)
    | Decoded(value: Json)

  /** The checks run on a decoded value inside the `try`: both membership
      tests, then the `script_data['title']` the success message reads. */
  function Validate(v: Json): (r: Outcome<map<string, Json>>)
    ensures r.Returned? <==> v.JObj? && "title" in v.fields && "script" in v.fields
    ensures r.Returned? ==> r.value == v.fields
  {
    var hasTitle := In("title", v);
    if hasTitle.Raised? then Raised(hasTitle.message)
    else if !hasTitle.value then Raised(InvalidStructure)
    else
      // the second test cannot raise: `v` passed the first
      if !In("script", v).value then Raised(InvalidStructure)
      else
        var title := Subscript(v, "title");
        if title.Raised? then Raised(title.message) else Returned(v.fields)
  }

  datatype Generator = Generator(apiKey: string)
  {
    /** `generate`: a reply whose decoded value is an object holding both
        "title" and "script" is returned as it is; every other outcome is an
        exception, a ValueError only for a `json.JSONDecodeError`. */
    function Generate(response: Response): (r: Result<map<string, Json>>)
      ensures r.Ok? <==>
                response.Decoded? && response.value.JObj?
                && "title" in response.value.fields && "script" in response.value.fields
      ensures r.Ok? ==> response.value == JObj(r.value)
      ensures response.DecodeFailed? ==> r == Err(ValueError(ParsePrefix + response.message))
      ensures r.Err? && r.error.ValueError? ==> response.DecodeFailed?
      ensures r.Err? && !response.DecodeFailed? ==>
                r.error.RuntimeError? && StartsWith(r.error.message, FailurePrefix)
      ensures response.CallFailed? ==> r == Err(RuntimeError(FailurePrefix + response.message))
      ensures response.Decoded? && response.value.JObj?
              && ("title" !in response.value.fields || "script" !in response.value.fields) ==>
                r == Err(RuntimeError(FailurePrefix + InvalidStructure))
    {
      match response
      case CallFailed(m) => Err(RuntimeError(FailurePrefix + m))
      case DecodeFailed(m) => Err(ValueError(ParsePrefix + m))
      case Decoded(v) =>
        var checked := Validate(v);
        if checked.Raised? then Err(RuntimeError(FailurePrefix + checked.message))
        else Ok(checked.value)
    }
  }

  /** `ScriptGenerator(api_key)`: the argument if it is truthy, else the
      configured default; neither truthy raises a ValueError. */
  function New(apiKey: Option<string>, configuredKey: Option<string>): (r: Result<Generator>)
    ensures r.Err? <==> !KeyGiven(apiKey) && !KeyGiven(configuredKey)
    ensures r.Err? ==> r.error == ValueError(MissingKeyMessage)
    ensures r.Ok? ==> r.value.apiKey != ""
    ensures r.Ok? && KeyGiven(apiKey) ==> r.value.apiKey == apiKey.value
    ensures r.Ok? && !KeyGiven(apiKey) ==> r.value.apiKey == configuredKey.value
  {
    var key := if KeyGiven(apiKey) then apiKey else configuredKey;
    if !KeyGiven(key) then Err(ValueError(MissingKeyMessage)) else Ok(Generator(key.value))
  }

  /** `str(e)` of the exception a result carries, as the pipeline records it. */
  function AsOutcome<T>(r: Result<T>): (o: Outcome<T>)
    ensures o.Returned? <==> r.Ok?
    ensures r.Ok? ==> o.value == r.value
    ensures r.Err? ==> o.message == r.error.message
  {
    match r
    case Ok(v) => Returned(v)
    case Err(e) => Raised(e.message)
  }

  /** A decoded list that contains both strings "title" and "script" passes
      both membership tests and fails only on the subscript. */
  lemma ListReplyFailsOnSubscript(g: Generator)
    ensures g.Generate(Decoded(JArr([JStr("title"), JStr("script")])))
            == Err(RuntimeError(FailurePrefix + "list indices must be integers or slices, not str"))
  {
    var v := JArr([JStr("title"), JStr("script")]);
    assert JStr("title") in v.items && JStr("script") in v.items;
  }

  /** The values stored under the two keys are not checked: empty strings, and
      extra keys, are accepted and kept. */
  lemma EmptyFieldsAccepted(g: Generator)
    ensures var m := map["title" := JStr(""), "script" := JStr(""), "extra" := JNull];
            g.Generate(Decoded(JObj(m))) == Ok(m)
  {
  }
}
