/** The response normaliser of the LLM call: from the decoded body of a
    successful upstream response to the `{subject, body}` reply, or to the
    fault that the call's catch-all handler turns into a status-500 error. */
module Normalizer {
  import opened Wrappers
  import opened Text
  import opened PyJson

  /** What reaches the catch-all `except Exception` of the LLM call. */
  datatype Fault =
    /** A Python exception raised while reading the response. */
    | Raised(error: PyError)
    /** The status-500 HTTPException for a missing or empty `predictions`
        list; it is raised inside the `try` and so is caught again. */
    | InvalidFormat
    /** A fault of the HTTP client itself (connection, protocol); the
        normaliser never produces it. */
    | Transport(detail: string)

  /** The dict the LLM call returns. */
  datatype Reply = Reply(subject: Json, body: Json, success: bool, error: Option<string>)

  /** The subject used when the model's JSON has no `subject` key. */
  const DefaultSubject: string := "Excuse Email"

  /** The keys of a prediction object that may hold the model's text, in the
      order they are consulted. */
  const ContentKeys: seq<string> := ["candidates", "content", "text"]

  function Lift<T>(r: Result<T, PyError>): Result<T, Fault>
  {
    match r
    case Ok(v) => Ok(v)
    case Err(e) => Err(Raised(e))
  }

  /** The position in `keys` of the first key present in `m`, if any. */
  function FirstPresent(m: map<string, Json>, keys: seq<string>): (r: Option<nat>)
    ensures r.Some? ==> r.value < |keys| && keys[r.value] in m
    ensures r.Some? ==> forall k :: 0 <= k < r.value ==> keys[k] !in m
    ensures r.None? <==> forall k :: 0 <= k < |keys| ==> keys[k] !in m
  {
    if |keys| == 0 then None
    else if keys[0] in m then Some(0)
    else
      match FirstPresent(m, keys[1..])
      case None => None
      case Some(i) => Some(i + 1)
  }

  /** `candidates[0]["message"]["content"]`. */
  function CandidateContent(candidates: Json): Result<Json, PyError>
  {
    var first :- Index0(candidates);
    var message :- Index(first, "message");
    Index(message, "content")
  }

  /** The raw model output inside the first prediction. For a dict the first
      of `candidates`, `content`, `text` present decides; a dict with none of
      them, and any other value, is rendered with `str()`. */
  function RawText(prediction: Json, lib: Library): (r: Result<Json, PyError>)
    ensures !prediction.JObject? ==> r == Ok(JString(Str(prediction, lib)))
    ensures prediction.JObject? ==>
      var m := prediction.members;
      && ("candidates" in m ==> r == CandidateContent(m["candidates"]))
      && ("candidates" !in m && "content" in m ==> r == Ok(m["content"]))
      && ("candidates" !in m && "content" !in m && "text" in m ==> r == Ok(m["text"]))
      && ("candidates" !in m && "content" !in m && "text" !in m ==> r == Ok(JString(lib.repr(prediction))))
  {
    match prediction
    case JObject(m) =>
      (match FirstPresent(m, ContentKeys)
       case Some(0) => CandidateContent(m["candidates"])
       case Some(i) =>
         assert i == 1 || i == 2;
         assert ContentKeys[1] == "content" && ContentKeys[2] == "text";
         Ok(m[ContentKeys[i]])
       case None =>
         assert ContentKeys[1] !in m && ContentKeys[2] !in m;
         Ok(JString(Str(prediction, lib))))
    case _ => Ok(JString(Str(prediction, lib)))
  }

  /** The plain-text reading of a raw text that is not JSON: with `t` the
      stripped text, the subject is the part of `t` before its first newline
      and the body the part after it; a one-line `t` is the whole subject and
      the body is then the unstripped raw text. */
  ghost predicate IsFallbackOf(raw: string, subject: string, body: string)
  {
    var t := Strip(raw);
    && '\n' !in subject
    && ('\n' in t ==> subject + "\n" + body == t)
    && ('\n' !in t ==> subject == t && body == raw)
  }

  /** The line-splitting fallback: split the stripped text on newlines, take
      the first line as subject and join the others as body. */
  function Fallback(raw: string): (r: (string, string))
    ensures IsFallbackOf(raw, r.0, r.1)
  {
    var lines := Split(Strip(raw), '\n');
    var subject := if |lines| > 0 then lines[0] else DefaultSubject;
    var body := if |lines| > 1 then Join(lines[1..], '\n') else raw;
    (subject, body)
  }

  /** The fallback reading is unique: the subject is the newline-free prefix
      of the stripped text, which fixes the body too. */
  lemma FallbackUnique(raw: string, s1: string, b1: string, s2: string, b2: string)
    requires IsFallbackOf(raw, s1, b1) && IsFallbackOf(raw, s2, b2)
    ensures s1 == s2 && b1 == b2
  {
    var t := Strip(raw);
    if '\n' in t {
      assert t == s1 + ['\n'] + b1 == s2 + ['\n'] + b2;
      SplitAfterHead(s1, '\n', b1);
      SplitAfterHead(s2, '\n', b2);
      assert Split(t, '\n')[1..] == Split(b1, '\n') == Split(b2, '\n');
    }
  }

  /** A text made of a first line and a rest, with no whitespace at its two
      ends, falls back to exactly that first line and rest. */
  lemma FallbackOfLines(subject: string, body: string)
    requires '\n' !in subject
    requires |subject| > 0 && !IsSpace(subject[0])
    requires |body| > 0 && !IsSpace(body[|body| - 1])
    ensures Fallback(subject + "\n" + body) == (subject, body)
  {
    var raw := subject + "\n" + body;
    assert raw[0] == subject[0] && raw[|raw| - 1] == body[|body| - 1];
    StripKeeps(raw);
    assert raw[|subject|] == '\n';
    var (s, b) := Fallback(raw);
    FallbackUnique(raw, s, b, subject, body);
  }

  /** A single line with no whitespace at either end is both the subject
      and the body of its fallback reading. */
  lemma FallbackOfLine(line: string)
    requires '\n' !in line
    requires |line| > 0 && !IsSpace(line[0]) && !IsSpace(line[|line| - 1])
    ensures Fallback(line) == (line, line)
  {
    StripKeeps(line);
    assert Split(Strip(line), '\n') == [line];
  }

  /** The fallback subject is empty exactly when the raw text is all
      whitespace; a raw text with a line break after stripping gives a
      non-empty subject and a non-empty body. */
  lemma FallbackEmptiness(raw: string)
    ensures Fallback(raw).0 == "" <==> AllSpace(raw)
    ensures '\n' in Strip(raw) ==> Fallback(raw).0 != "" && Fallback(raw).1 != ""
  {
    var t := Strip(raw);
    var (subject, body) := Fallback(raw);
    if '\n' in t {
      assert t[0] == (subject + "\n" + body)[0];
      assert t[|t| - 1] == (subject + "\n" + body)[|t| - 1];
      assert IsSpace('\n');
    }
  }

  /** `json.loads(content)` and what follows it: a dict gives its `subject`
      and `body` with defaults, any other parsed value makes `.get` raise,
      text that is not JSON goes to the line-splitting fallback. */
  function Interpret(content: Json, lib: Library): (r: Result<Reply, Fault>)
    ensures r.Ok? ==> r.value.success && r.value.error == None
    ensures !content.JString? ==> r == Err(Raised(TypeError))
    ensures r.Err? ==> content.JString? ==> (match lib.loads(content.s) case Some(p) => !p.JObject? case None => false)
  {
    match Loads(content, lib)
    case Ok(parsed) =>
      (match (Get(parsed, "subject", JString(DefaultSubject)), Get(parsed, "body", content))
       case (Ok(subject), Ok(body)) => Ok(Reply(subject, body, true, None))
       case (Err(e), _) => Err(Raised(e))
       case (_, Err(e)) => Err(Raised(e)))
    case Err(JSONDecodeError) =>
      var (subject, body) := Fallback(content.s);
      Ok(Reply(JString(subject), JString(body), true, None))
    case Err(e) => Err(Raised(e))
  }

  /** What a successful reply for the raw text `raw` is, stated without the
      line splitting: the dict's fields with their defaults when `raw` parses
      to a dict, the first-newline reading when it does not parse. */
  ghost predicate ReplyFor(raw: string, reply: Reply, lib: Library)
  {
    && reply.success && reply.error == None
    && match lib.loads(raw)
       case Some(JObject(m)) =>
         && reply.subject == (if "subject" in m then m["subject"] else JString(DefaultSubject))
         && reply.body == (if "body" in m then m["body"] else JString(raw))
       case Some(_) => false
       case None =>
         reply.subject.JString? && reply.body.JString? && IsFallbackOf(raw, reply.subject.s, reply.body.s)
  }

  /** A raw text yields exactly the replies `ReplyFor` describes, and always
      one unless it parses to something other than a dict. */
  lemma InterpretMeansReplyFor(raw: string, reply: Reply, lib: Library)
    ensures Interpret(JString(raw), lib) == Ok(reply) <==> ReplyFor(raw, reply, lib)
  {
    if lib.loads(raw).None? && ReplyFor(raw, reply, lib) {
      var (subject, body) := Fallback(raw);
      FallbackUnique(raw, subject, body, reply.subject.s, reply.body.s);
    }
  }

  /** The body of the `try` from the `predictions` check on: the first
      prediction's raw text, then its interpretation. */
  function Normalize(result: Json, lib: Library): (r: Result<Reply, Fault>)
    ensures r.Ok? ==> r.value.success && r.value.error == None
    ensures result.JObject? && "predictions" !in result.members ==> r == Err(InvalidFormat)
    ensures (result.JObject? && "predictions" in result.members && Len(result.members["predictions"]) == Ok(0))
            ==> r == Err(InvalidFormat)
    ensures r.Ok? ==> && result.JObject? && "predictions" in result.members
                      && var p := result.members["predictions"];
                         (p.JArray? && |p.items| > 0) || (p.JString? && |p.s| > 0)
    ensures r.Err? ==> !r.error.Transport?
  {
    var present :- Lift(Contains(result, "predictions"));
    if !present then Err(InvalidFormat)
    else
      var predictions :- Lift(Index(result, "predictions"));
      var count :- Lift(Len(predictions));
      if count == 0 then Err(InvalidFormat)
      else
        var prediction :- Lift(Index0(predictions));
        var content :- Lift(RawText(prediction, lib));
        Interpret(content, lib)
  }

  /** For an envelope `{"predictions": s}` with a non-empty string `s`, the
      prediction is the first character of `s`, and `str()` of it is that
      same one-character text. */
  lemma NormalizeStringPredictions(result: Json, lib: Library)
    requires result.JObject? && "predictions" in result.members
    requires result.members["predictions"].JString? && |result.members["predictions"].s| > 0
    ensures var s := result.members["predictions"].s;
      && RawText(JString(s[..1]), lib) == Ok(JString(s[..1]))
      && Normalize(result, lib) == Interpret(JString(s[..1]), lib)
    ensures var s := result.members["predictions"].s;
      Normalize(result, lib).Ok? ==> ReplyFor(s[..1], Normalize(result, lib).value, lib)
  {
    var s := result.members["predictions"].s;
    assert Contains(result, "predictions") == Ok(true);
    assert Index0(JString(s)) == Ok(JString(s[..1]));
    if Normalize(result, lib).Ok? {
      InterpretMeansReplyFor(s[..1], Normalize(result, lib).value, lib);
    }
  }

  /** For an envelope `{"predictions": [p, ...]}` the reply depends on `p`
      alone: it is the interpretation of `p`'s raw text, and a reply always
      satisfies `ReplyFor` for that text. */
  lemma NormalizeUsesFirstPrediction(result: Json, lib: Library)
    requires result.JObject? && "predictions" in result.members
    requires result.members["predictions"].JArray? && |result.members["predictions"].items| > 0
    ensures var p := result.members["predictions"].items[0];
      Normalize(result, lib) == (match RawText(p, lib) case Ok(c) => Interpret(c, lib) case Err(e) => Err(Raised(e)))
    ensures var p := result.members["predictions"].items[0];
      Normalize(result, lib).Ok? ==>
        && RawText(p, lib).Ok? && RawText(p, lib).value.JString?
        && ReplyFor(RawText(p, lib).value.s, Normalize(result, lib).value, lib)
  {
    var p := result.members["predictions"].items[0];
    assert Contains(result, "predictions") == Ok(true);
    if Normalize(result, lib).Ok? {
      InterpretMeansReplyFor(RawText(p, lib).value.s, Normalize(result, lib).value, lib);
    }
  }
}
