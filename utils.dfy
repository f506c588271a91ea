/** Helper functions: parsing the "provider/model-name" setting into a chat
    model description, and small text utilities. */
module Utils {
  import opened Wrappers
  import opened PyStrings
  import opened State

  // ---------------------------------------------------------------------------
  // load_chat_model
  // ---------------------------------------------------------------------------

  /** The chat model a model string selects, with the settings it is built with. */
  datatype ChatModel =
    | ChatOpenAI(model: string)
    | ChatAnthropic(model: string)
    | AzureChatOpenAI(deploymentName: string, apiVersion: string, azureEndpoint: string,
                      apiKey: string, temperature: real)

  const AzureApiVersion: string := "2024-12-01-preview"
  const AzureTemperature: real := 0.1

  const EndpointVariable: string := "AZURE_OPENAI_ENDPOINT"
  const ApiKeyVariable: string := "AZURE_OPENAI_API_KEY"

  const AzureSettingsError: string :=
    "To use Azure OpenAI, " + EndpointVariable + " and " + ApiKeyVariable + " environment variables must be set."

  /** The form a model string must have. */
  const ModelForm: string := "provider/model-name"

  function FormatError(modelString: string): string {
    "Model string must be in '" + ModelForm + "' format. Input: " + modelString
  }

  /** The format error names the expected form. */
  lemma FormatErrorNamesForm(modelString: string)
    ensures Contains(FormatError(modelString), "provider/model-name")
  {
    var tail := "' format. Input: " + modelString;
    assert FormatError(modelString) == "Model string must be in '" + ModelForm + tail;
    ContainsInfix("Model string must be in '", ModelForm, tail);
  }

  /** The Azure settings error names both variables. */
  lemma AzureErrorNamesBoth()
    ensures Contains(AzureSettingsError, "AZURE_OPENAI_ENDPOINT")
    ensures Contains(AzureSettingsError, "AZURE_OPENAI_API_KEY")
  {
    var head := "To use Azure OpenAI, ";
    var tail := " environment variables must be set.";
    assert AzureSettingsError == head + EndpointVariable + (" and " + ApiKeyVariable + tail);
    ContainsInfix(head, EndpointVariable, " and " + ApiKeyVariable + tail);
    assert AzureSettingsError == (head + EndpointVariable + " and ") + ApiKeyVariable + tail;
    ContainsInfix(head + EndpointVariable + " and ", ApiKeyVariable, tail);
  }

  /** `os.environ.get(key)` read as a truth value: set and non-empty. */
  predicate IsSet(environ: map<string, string>, key: string) {
    key in environ && environ[key] != ""
  }

  /** `model_string.split("/", 1)` unpacked into (provider, model name); None
      when the unpacking fails because there is no "/". */
  function ParseModelString(modelString: string): (r: Option<(string, string)>)
    ensures r.None? <==> '/' !in modelString
    ensures r.Some? ==> modelString == r.value.0 + "/" + r.value.1 && '/' !in r.value.0
  {
    var parts := SplitOnce(modelString, "/");
    ContainsChar(modelString, '/');
    if |parts| == 2 then
      ContainsChar(parts[0], '/');
      Some((parts[0], parts[1]))
    else
      None
  }

  /** `load_chat_model(model_string)` with the process environment as a map.
      A `ValueError` becomes a Failure carrying its message. */
  function LoadChatModel(modelString: string, environ: map<string, string>): Result<ChatModel> {
    match ParseModelString(modelString)
    case None => Failure(FormatError(modelString))
    case Some((provider, modelName)) => ModelForProvider(provider, modelName, environ)
  }

  /** The dispatch on the provider name once the string has been split. */
  function ModelForProvider(provider: string, modelName: string, environ: map<string, string>): Result<ChatModel> {
    if provider == "openai" then Success(ChatOpenAI(modelName))
    else if provider == "anthropic" then Success(ChatAnthropic(modelName))
    else if provider == "azure" then
      if !IsSet(environ, "AZURE_OPENAI_ENDPOINT") || !IsSet(environ, "AZURE_OPENAI_API_KEY") then
        Failure(AzureSettingsError)
      else
        Success(AzureChatOpenAI(modelName, AzureApiVersion, environ["AZURE_OPENAI_ENDPOINT"],
                                environ["AZURE_OPENAI_API_KEY"], AzureTemperature))
    else Failure("Unsupported provider: " + provider)
  }

  /** The model string is cut at its first "/" only: the provider is the text
      before it and the model name is everything after, further "/" included. */
  lemma ParseAtFirstSlash(provider: string, modelName: string)
    requires '/' !in provider
    ensures ParseModelString(provider + "/" + modelName) == Some((provider, modelName))
  {
    var s := provider + "/" + modelName;
    SplitAtFirstChar(provider, '/', modelName);
    assert s == provider + ['/'] + modelName;
    var rest := Split(modelName, "/");
    assert Split(s, "/") == [provider] + rest;
    if |rest| > 1 {
      assert ([provider] + rest)[1..] == rest;
    }
  }

  lemma LoadAtFirstSlash(provider: string, modelName: string, environ: map<string, string>)
    requires '/' !in provider
    ensures LoadChatModel(provider + "/" + modelName, environ) == ModelForProvider(provider, modelName, environ)
  {
    ParseAtFirstSlash(provider, modelName);
  }

  /** A model string without "/" is rejected with a message that names the
      expected "provider/model-name" form. */
  lemma NoSlashIsFormatError(modelString: string, environ: map<string, string>)
    requires '/' !in modelString
    ensures LoadChatModel(modelString, environ) == Failure(FormatError(modelString))
  {
  }

  /** Only three providers are known; any other is rejected by name. */
  lemma UnsupportedProvider(provider: string, modelName: string, environ: map<string, string>)
    requires '/' !in provider
    requires provider != "openai" && provider != "anthropic" && provider != "azure"
    ensures LoadChatModel(provider + "/" + modelName, environ) == Failure("Unsupported provider: " + provider)
  {
    LoadAtFirstSlash(provider, modelName, environ);
  }

  /** OpenAI models take the model name as it stands. */
  lemma OpenAIProvider(modelName: string, environ: map<string, string>)
    ensures LoadChatModel("openai/" + modelName, environ) == Success(ChatOpenAI(modelName))
  {
    LoadAtFirstSlash("openai", modelName, environ);
    assert "openai/" + modelName == "openai" + "/" + modelName;
  }

  /** Anthropic models take the model name as it stands. */
  lemma AnthropicProvider(modelName: string, environ: map<string, string>)
    ensures LoadChatModel("anthropic/" + modelName, environ) == Success(ChatAnthropic(modelName))
  {
    assert "anthropic/" + modelName == "anthropic" + "/" + modelName;
    assert ModelForProvider("anthropic", modelName, environ) == Success(ChatAnthropic(modelName)) by {
      assert "anthropic" != "openai";
    }
    LoadAtFirstSlash("anthropic", modelName, environ);
  }

  /** Azure needs both environment variables set and non-empty; otherwise the
      error is the fixed settings message. On success the deployment is the model name, with the
      fixed API version and temperature. */
  lemma AzureProvider(modelName: string, environ: map<string, string>)
    ensures var r := LoadChatModel("azure/" + modelName, environ);
      && (r.Success? <==> IsSet(environ, "AZURE_OPENAI_ENDPOINT") && IsSet(environ, "AZURE_OPENAI_API_KEY"))
      && (r.Failure? ==> r.error == AzureSettingsError)
      && (r.Success? ==> r.value == AzureChatOpenAI(modelName, "2024-12-01-preview",
                                                    environ["AZURE_OPENAI_ENDPOINT"],
                                                    environ["AZURE_OPENAI_API_KEY"], 0.1))
  {
    LoadAtFirstSlash("azure", modelName, environ);
    assert "azure/" + modelName == "azure" + "/" + modelName;
  }


  /** Unit-test case: "openai/gpt-4.1" gives an OpenAI model named "gpt-4.1". */
  lemma OpenAIExample(environ: map<string, string>)
    ensures LoadChatModel("openai/gpt-4.1", environ) == Success(ChatOpenAI("gpt-4.1"))
  {
    OpenAIProvider("gpt-4.1", environ);
    assert "openai/" + "gpt-4.1" == "openai/gpt-4.1";
  }

  /** Unit-test case: an unknown provider is rejected by name. */
  lemma UnsupportedExample(environ: map<string, string>)
    ensures LoadChatModel("unsupported/model", environ) == Failure("Unsupported provider: " + "unsupported")
  {
    assert "unsupported" != "openai" && "unsupported" != "anthropic" && "unsupported" != "azure";
    UnsupportedProvider("unsupported", "model", environ);
    assert "unsupported" + "/" + "model" == "unsupported/model";
  }

  /** Unit-test case: Azure without its environment variables is an error. */
  lemma AzureWithoutSettingsExample()
    ensures LoadChatModel("azure/gpt-4.1", map[]) == Failure(AzureSettingsError)
  {
    AzureProvider("gpt-4.1", map[]);
    assert "azure/" + "gpt-4.1" == "azure/gpt-4.1";
  }

  /** Unit-test case: a string without "/" is an error. */
  lemma InvalidFormatExample(environ: map<string, string>)
    ensures LoadChatModel("invalid-format", environ).Failure?
  {
    NoSlashIsFormatError("invalid-format", environ);
  }

  // ---------------------------------------------------------------------------
  // Text helpers
  // ---------------------------------------------------------------------------

  /** The argument of `extract_text_from_message`: a plain string, one of the
      three chat message kinds, or any other object (shown by its `str`). */
  datatype MessageLike = Text(text: string) | Chat(message: Message) | OtherObject(str: string)

  function ExtractTextFromMessage(m: MessageLike): (r: string)
    ensures m.Text? ==> r == m.text
    ensures m.Chat? ==> r == m.message.content
    ensures m.OtherObject? ==> r == m.str
  {
    match m
    case Text(t) => t
    case Chat(msg) => msg.content
    case OtherObject(s) => s
  }

  /** Display form of an analyst: a bold name line, then Role, Affiliation and
      Expertise lines, with no trailing newline. */
  function FormatAnalystDescription(a: Analyst): string {
    "\U{1F464} **" + a.name + "**\n"
      + "   - Role: " + a.role + "\n"
      + "   - Affiliation: " + a.affiliation + "\n"
      + "   - Expertise: " + a.description
  }

  lemma AnalystDescriptionLines(a: Analyst)
    ensures FormatAnalystDescription(a)
         == Join(["\U{1F464} **" + a.name + "**", "   - Role: " + a.role,
                  "   - Affiliation: " + a.affiliation, "   - Expertise: " + a.description], "\n")
  {
    var lines := ["\U{1F464} **" + a.name + "**", "   - Role: " + a.role,
                  "   - Affiliation: " + a.affiliation, "   - Expertise: " + a.description];
    assert lines[1..][1..][1..] == ["   - Expertise: " + a.description];
    assert Join(lines[1..][1..], "\n") == "   - Affiliation: " + a.affiliation + "\n" + "   - Expertise: " + a.description;
  }

  /** A level-two heading surrounded by blank lines; the name can be read back
      from between the fixed delimiters. */
  function FormatSectionHeader(sectionName: string): (r: string)
    ensures StartsWith(r, "\n\n## ") && |r| == |sectionName| + 7
    ensures r[5..|r| - 2] == sectionName && r[|r| - 2..] == "\n\n"
  {
    "\n\n## " + sectionName + "\n\n"
  }

  lemma SectionHeaderInjective(a: string, b: string)
    requires FormatSectionHeader(a) == FormatSectionHeader(b)
    ensures a == b
  {
    var h := FormatSectionHeader(a);
    assert a == h[5..|h| - 2];
  }

  /** The default `max_length` of `truncate_text`. */
  const DefaultMaxLength: int := 1000

  /** `truncate_text(text, max_length)`: text that fits is returned as is;
      otherwise a prefix of it followed by "...". With a limit of at least 3
      the result has exactly the limit's length. With a smaller limit Python's
      negative slice bound counts from the end, and the result is longer than
      the limit. */
  function TruncateText(text: string, maxLength: int := DefaultMaxLength): (r: string)
    ensures |text| <= maxLength ==> r == text
    ensures |text| > maxLength ==> |r| >= 3 && r[|r| - 3..] == "..." && StartsWith(text, r[..|r| - 3])
    ensures |text| > maxLength && maxLength >= 3 ==> |r| == maxLength
    ensures |text| > maxLength && maxLength < 3 ==>
              |r| == (if |text| + maxLength >= 3 then |text| + maxLength else 3) && |r| > maxLength
  {
    if |text| <= maxLength then text
    else
      var kept := SliceTo(text, maxLength - 3);
      assert (kept + "...")[..|kept|] == kept;
      kept + "..."
  }

  /** With the default limit, text of up to 1000 characters is kept and
      longer text becomes its first 997 characters followed by "...". */
  lemma TruncateTextDefault(text: string)
    ensures |text| <= 1000 ==> TruncateText(text) == text
    ensures |text| > 1000 ==> TruncateText(text) == text[..997] + "..." && |TruncateText(text)| == 1000
  {
    if |text| > 1000 {
      assert SliceTo(text, 997) == text[..997];
    }
  }

  /** The three document-tag fragments, removed in this order. */
  function RemoveDocumentTags(source: string): string {
    Replace(Replace(Replace(source, "<Document source=\"", ""), "\"/>", ""), "</Document>", "")
  }

  /** `clean_source_citation(source)`: remove the tag fragments, collapse
      every whitespace run to one space and strip the ends. The result has no
      leading or trailing whitespace, no two whitespace characters in a row,
      only plain spaces as whitespace, and exactly the words of the tag-free
      text, in order, one space between neighbours. */
  function CleanSourceCitation(source: string): (r: string)
    ensures Collapsed(r)
    ensures Words(r) == Words(RemoveDocumentTags(source))
    ensures NonSpace(r) == NonSpace(RemoveDocumentTags(source))
  {
    var collapsed := CollapseWhitespace(RemoveDocumentTags(source));
    StripCollapsed(collapsed);
    Strip(collapsed, Whitespace)
  }

  /** Joining with the empty separator is plain concatenation. */
  lemma {:induction false} JoinEmptyIsConcat(xs: seq<string>)
    ensures Join(xs, "") == Concat(xs)
    decreases |xs|
  {
    if |xs| == 1 {
      assert xs[1..] == [];
    } else if |xs| > 1 {
      JoinEmptyIsConcat(xs[1..]);
    }
  }

  /** Replacing with the empty string keeps exactly the pieces between the
      removed occurrences, none of which contains the removed text. */
  lemma RemovalKeepsPieces(s: string, target: string)
    requires |target| > 0
    ensures Replace(s, target, "") == Concat(Split(s, target))
    ensures forall i :: 0 <= i < |Split(s, target)| ==> !Contains(Split(s, target)[i], target)
  {
    JoinEmptyIsConcat(Split(s, target));
  }
}
