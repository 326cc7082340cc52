/** The excuse request, its validation, and what the LLM call sends
    upstream: the prompt text, the request payload and the headers. */
module ExcusePrompt {
  import opened Wrappers
  import opened Text
  import opened PyJson

  /** The request body of the generate endpoint, as received. */
  datatype ExcuseRequest = ExcuseRequest(
    category: string,
    tone: string,
    seriousness: int,
    recipientName: string,
    senderName: string,
    etaWhen: string)
  {
    /** The field constraint of the request model: seriousness from 1 to 5. */
    predicate Valid() {
      1 <= seriousness <= 5
    }
  }

  /** A request that passed validation, as the LLM call receives it. */
  type ValidRequest = r: ExcuseRequest | r.Valid() witness ExcuseRequest("", "", 1, "", "", "")

  datatype Rejection = SeriousnessOutOfRange(given: int)

  /** Request validation: the seriousness must lie in 1..5; it is rejected,
      never clamped. */
  function Validate(raw: ExcuseRequest): (r: Result<ValidRequest, Rejection>)
    ensures r.Ok? <==> 1 <= raw.seriousness <= 5
    ensures r.Ok? ==> r.value == raw
    ensures r.Err? ==> r.error == SeriousnessOutOfRange(raw.seriousness)
  {
    if raw.Valid() then Ok(raw) else Err(SeriousnessOutOfRange(raw.seriousness))
  }

  /** The seriousness level as the f-string prints it. */
  function LevelText(level: int): (s: string)
    requires 1 <= level <= 5
  {
    [(('0' as int) + level) as char]
  }

  const CategoryLabel: string := "- Category: "
  const ToneLabel: string := "- Tone: "
  const LevelLabel: string := "- Seriousness Level: "
  const LevelSuffix: string := "/5 (1=very silly, 5=serious)"
  const RecipientLabel: string := "- Recipient: "
  const SenderLabel: string := "- Sender: "
  const EtaLabel: string := "- ETA/When: "

  /** The template text before the context lines. */
  const Preamble: string :=
    "\nYou are an AI assistant that generates professional excuse emails. Generate a JSON response with \"subject\" and \"body\" fields.\n\nContext:\n"

  /** The template text after the context lines: the instructions and the
      literal example of the expected JSON reply. */
  const Postamble: string :=
    "\nGenerate an email with:\n1. A professional subject line\n2. A complete email body with greeting, apology/excuse, reason, next step, and sign-off\n3. Match the tone and seriousness level appropriately\n\nRespond ONLY with valid JSON in this format:\n{\"subject\": \"Subject Line\", \"body\": \"Dear [Recipient],\\n\\nEmail body content...\\n\\nBest regards,\\n[Sender]\"}\n"

  /** The six labelled context lines, one per request field. */
  function ContextLines(r: ValidRequest): seq<string>
  {
    [ CategoryLabel + r.category,
      ToneLabel + r.tone,
      LevelLabel + LevelText(r.seriousness) + LevelSuffix,
      RecipientLabel + r.recipientName,
      SenderLabel + r.senderName,
      EtaLabel + r.etaWhen ]
  }

  /** Template text, then lines joined by line breaks, a line break, and
      more template text. */
  function Fill(pre: string, lines: seq<string>, post: string): string
  {
    pre + Join(lines, '\n') + "\n" + post
  }

  /** The prompt sent to the model: the template with the request filled in. */
  function Prompt(r: ValidRequest): string
  {
    Fill(Preamble, ContextLines(r), Postamble)
  }

  /** The text after `tag` on a line that starts with it. */
  function AfterLabel(line: string, tag: string): (r: Option<string>)
    ensures r.Some? <==> tag <= line
    ensures r.Some? ==> line == tag + r.value
  {
    if tag <= line then Some(line[|tag|..]) else None
  }

  /** Reads the seriousness back from the text after its label. */
  function ReadLevel(text: string): (r: Option<int>)
    ensures r.Some? ==> 1 <= r.value <= 5 && text == LevelText(r.value) + LevelSuffix
  {
    if |text| == 1 + |LevelSuffix| && text[1..] == LevelSuffix && '1' <= text[0] <= '5' then
      var level := text[0] as int - '0' as int;
      assert text == [text[0]] + text[1..];
      Some(level)
    else None
  }

  /** Recovers the request from a prompt, as a reader of the prompt would:
      after the preamble, the text behind each label on the next six lines. */
  function ReadContext(prompt: string): Option<ExcuseRequest>
  {
    ReadAfter(Preamble, prompt)
  }

  /** Reads the six labelled lines that follow the template text `pre`. */
  function ReadAfter(pre: string, prompt: string): Option<ExcuseRequest>
  {
    if !(pre <= prompt) then None
    else
      var lines := Split(prompt[|pre|..], '\n');
      if |lines| < 6 then None
      else
        var category :- AfterLabel(lines[0], CategoryLabel);
        var tone :- AfterLabel(lines[1], ToneLabel);
        var levelText :- AfterLabel(lines[2], LevelLabel);
        var level :- ReadLevel(levelText);
        var recipient :- AfterLabel(lines[3], RecipientLabel);
        var sender :- AfterLabel(lines[4], SenderLabel);
        var eta :- AfterLabel(lines[5], EtaLabel);
        Some(ExcuseRequest(category, tone, level, recipient, sender, eta))
  }

  predicate SingleLine(s: string) {
    '\n' !in s
  }

  /** Every field appears verbatim on its labelled line: when no text field
      contains a line break, the context lines of the prompt give back
      exactly the request it was built from. */
  lemma PromptRoundTrip(r: ValidRequest)
    requires SingleLine(r.category) && SingleLine(r.tone) && SingleLine(r.recipientName)
    requires SingleLine(r.senderName) && SingleLine(r.etaWhen)
    ensures ReadContext(Prompt(r)) == Some(r)
  {
    FillRoundTrip(Preamble, r, Postamble);
  }

  /** Whatever the template text around them, the filled-in context lines
      read back as the request. */
  lemma FillRoundTrip(pre: string, r: ValidRequest, post: string)
    requires SingleLine(r.category) && SingleLine(r.tone) && SingleLine(r.recipientName)
    requires SingleLine(r.senderName) && SingleLine(r.etaWhen)
    ensures ReadAfter(pre, Fill(pre, ContextLines(r), post)) == Some(r)
  {
    var context := ContextLines(r);
    ContextLinesSingle(r);
    FillSplits(pre, context, post);
    var lines := Split(Fill(pre, context, post)[|pre|..], '\n');
    assert lines[..6] == context;
    ReadContextLines(lines, r);
  }

  /** The context lines are single lines when the fields are. */
  lemma ContextLinesSingle(r: ValidRequest)
    requires SingleLine(r.category) && SingleLine(r.tone) && SingleLine(r.recipientName)
    requires SingleLine(r.senderName) && SingleLine(r.etaWhen)
    ensures |ContextLines(r)| == 6
    ensures forall k :: 0 <= k < |ContextLines(r)| ==> SingleLine(ContextLines(r)[k])
  {
    assert SingleLine(LevelLabel + LevelText(r.seriousness) + LevelSuffix);
  }

  /** Whatever the surrounding template text, the filled-in lines are the
      first lines after the text before them. */
  lemma FillSplits(pre: string, lines: seq<string>, post: string)
    requires |lines| >= 1
    requires forall k :: 0 <= k < |lines| ==> SingleLine(lines[k])
    ensures pre <= Fill(pre, lines, post)
    ensures Split(Fill(pre, lines, post)[|pre|..], '\n') == lines + Split(post, '\n')
  {
    var rest := Join(lines, '\n') + ['\n'] + post;
    assert Fill(pre, lines, post) == pre + rest;
    assert Fill(pre, lines, post)[|pre|..] == rest;
    SplitJoinPrefix(lines, '\n', post);
  }

  /** Reading six context lines gives back the fields they were built from. */
  lemma ReadContextLines(lines: seq<string>, r: ValidRequest)
    requires |lines| >= 6 && lines[..6] == ContextLines(r)
    ensures AfterLabel(lines[0], CategoryLabel) == Some(r.category)
    ensures AfterLabel(lines[1], ToneLabel) == Some(r.tone)
    ensures AfterLabel(lines[2], LevelLabel).Some?
    ensures ReadLevel(AfterLabel(lines[2], LevelLabel).value) == Some(r.seriousness)
    ensures AfterLabel(lines[3], RecipientLabel) == Some(r.recipientName)
    ensures AfterLabel(lines[4], SenderLabel) == Some(r.senderName)
    ensures AfterLabel(lines[5], EtaLabel) == Some(r.etaWhen)
  {
    assert lines[2] == lines[..6][2];
    var levelText := LevelText(r.seriousness) + LevelSuffix;
    assert lines[2] == LevelLabel + levelText;
    assert levelText[0] == LevelText(r.seriousness)[0];
    assert levelText[1..] == LevelSuffix;
  }

  /** The JSON body posted upstream. */
  function Payload(prompt: string): Json
  {
    JObject(map["dataframe_records" := JArray([
      JObject(map["messages" := JArray([
        JObject(map["role" := JString("user"), "content" := JString(prompt)])])])])])
  }

  /** How the serving endpoint reads a payload: the content of the user
      message when the payload holds exactly one record with exactly one
      message of role `user`, nothing otherwise. */
  function UserPrompt(payload: Json): Option<string>
  {
    if !payload.JObject? || payload.members.Keys != {"dataframe_records"} then None
    else
      var records := payload.members["dataframe_records"];
      if !records.JArray? || |records.items| != 1 then None
      else
        var record := records.items[0];
        if !record.JObject? || record.members.Keys != {"messages"} then None
        else
          var messages := record.members["messages"];
          if !messages.JArray? || |messages.items| != 1 then None
          else
            var message := messages.items[0];
            if message.JObject? && message.members.Keys == {"role", "content"}
               && message.members["role"] == JString("user") && message.members["content"].JString?
            then Some(message.members["content"].s)
            else None
  }

  /** The payload holds one record with one user message whose content is
      the prompt, so distinct prompts give distinct payloads. */
  lemma PayloadCarriesPrompt(prompt: string)
    ensures UserPrompt(Payload(prompt)) == Some(prompt)
  {
    var message := map["role" := JString("user"), "content" := JString(prompt)];
    assert message.Keys == {"role", "content"};
    assert map["messages" := JArray([JObject(message)])].Keys == {"messages"};
  }

  /** The request headers for a configured token. */
  function Headers(token: string): seq<(string, string)>
  {
    [("Authorization", "Bearer " + token), ("Content-Type", "application/json")]
  }
}
