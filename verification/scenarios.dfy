/** Concrete envelopes taken through the normaliser.
    `json.loads` is a parameter of the model, so each scenario states what it
    returns on the texts involved. */
module Scenarios {
  import opened Wrappers
  import opened Text
  import opened PyJson
  import opened Normalizer

  /** `{"predictions": [prediction]}`. */
  function Envelope(prediction: Json): Json
  {
    JObject(map["predictions" := JArray([prediction])])
  }

  const SubjectAndBody: string := "{\"subject\":\"S\",\"body\":\"B\"}"

  function SubjectAndBodyDoc(): Json
  {
    JObject(map["subject" := JString("S"), "body" := JString("B")])
  }

  /** A `content` field holding the JSON reply gives its subject and body. */
  lemma ContentJson(lib: Library)
    requires lib.loads(SubjectAndBody) == Some(SubjectAndBodyDoc())
    ensures Normalize(Envelope(JObject(map["content" := JString(SubjectAndBody)])), lib)
            == Ok(Reply(JString("S"), JString("B"), true, None))
  {
    var prediction := JObject(map["content" := JString(SubjectAndBody)]);
    assert RawText(prediction, lib) == Ok(JString(SubjectAndBody));
    NormalizeUsesFirstPrediction(Envelope(prediction), lib);
  }

  /** The same reply nested as `candidates[0].message.content` gives the
      same result. */
  lemma CandidatesJson(lib: Library)
    requires lib.loads(SubjectAndBody) == Some(SubjectAndBodyDoc())
    ensures var message := JObject(map["content" := JString(SubjectAndBody)]);
      Normalize(Envelope(JObject(map["candidates" := JArray([JObject(map["message" := message])])])), lib)
        == Ok(Reply(JString("S"), JString("B"), true, None))
  {
    var message := JObject(map["content" := JString(SubjectAndBody)]);
    var prediction := JObject(map["candidates" := JArray([JObject(map["message" := message])])]);
    assert RawText(prediction, lib) == Ok(JString(SubjectAndBody));
    NormalizeUsesFirstPrediction(Envelope(prediction), lib);
  }

  const BodyOnly: string := "{\"body\":\"only body\"}"

  /** A JSON reply without `subject` gets the placeholder subject. */
  lemma BodyOnlyJson(lib: Library)
    requires lib.loads(BodyOnly) == Some(JObject(map["body" := JString("only body")]))
    ensures Normalize(Envelope(JObject(map["content" := JString(BodyOnly)])), lib)
            == Ok(Reply(JString("Excuse Email"), JString("only body"), true, None))
  {
    var prediction := JObject(map["content" := JString(BodyOnly)]);
    assert RawText(prediction, lib) == Ok(JString(BodyOnly));
    NormalizeUsesFirstPrediction(Envelope(prediction), lib);
  }

  const TwoLines: string := "Running Late\nSorry, traffic is bad."

  /** Plain text is split at its first line break. */
  lemma PlainTextLines(lib: Library)
    requires lib.loads(TwoLines) == None
    ensures Normalize(Envelope(JObject(map["content" := JString(TwoLines)])), lib)
            == Ok(Reply(JString("Running Late"), JString("Sorry, traffic is bad."), true, None))
  {
    TwoLinesFallback();
    PlainTextReply(TwoLines, "Running Late", "Sorry, traffic is bad.", lib);
  }

  /** A `content` field holding text that is not JSON gives its fallback
      reading as the reply. */
  lemma PlainTextReply(raw: string, subject: string, body: string, lib: Library)
    requires lib.loads(raw) == None
    requires Fallback(raw) == (subject, body)
    ensures Normalize(Envelope(JObject(map["content" := JString(raw)])), lib)
            == Ok(Reply(JString(subject), JString(body), true, None))
  {
    var prediction := JObject(map["content" := JString(raw)]);
    assert RawText(prediction, lib) == Ok(JString(raw));
    NormalizeUsesFirstPrediction(Envelope(prediction), lib);
  }

  lemma TwoLinesFallback()
    ensures Fallback(TwoLines) == ("Running Late", "Sorry, traffic is bad.")
  {
    assert TwoLines == "Running Late" + "\n" + "Sorry, traffic is bad.";
    FallbackOfLines("Running Late", "Sorry, traffic is bad.");
  }

  /** Empty model output is accepted with an empty subject and body: the
      reply fields are not guaranteed to be non-empty. */
  lemma EmptyText(lib: Library)
    requires lib.loads("") == None
    ensures Normalize(Envelope(JObject(map["text" := JString("")])), lib)
            == Ok(Reply(JString(""), JString(""), true, None))
  {
    var prediction := JObject(map["text" := JString("")]);
    assert RawText(prediction, lib) == Ok(JString(""));
    FallbackEmptiness("");
    NormalizeUsesFirstPrediction(Envelope(prediction), lib);
  }

  /** A non-empty string as `predictions` is accepted: its first character
      is the prediction, and its `str()` is the raw text. */
  lemma StringPredictions(lib: Library)
    requires lib.loads("a") == None
    ensures Normalize(JObject(map["predictions" := JString("abc")]), lib)
            == Ok(Reply(JString("a"), JString("a"), true, None))
  {
    assert "abc"[..1] == "a";
    assert Index0(JString("abc")) == Ok(JString("a"));
    FallbackOfLine("a");
  }

  /** A string `predictions` starting with a digit passes the envelope
      check, but its prediction parses to a number, which has no `get`. */
  lemma DigitPrediction(lib: Library)
    requires lib.loads("1") == Some(JNumber(1))
    ensures Normalize(JObject(map["predictions" := JString("1 excuse")]), lib) == Err(Raised(AttributeError))
  {
    assert "1 excuse"[..1] == "1";
    assert Index0(JString("1 excuse")) == Ok(JString("1"));
  }

  /** A document without `predictions`, and an empty `predictions` list, are
      the malformed-envelope error. */
  lemma NoPredictions(lib: Library)
    ensures Normalize(JObject(map[]), lib) == Err(InvalidFormat)
    ensures Normalize(JObject(map["predictions" := JArray([])]), lib) == Err(InvalidFormat)
  {
  }
}
