/** Runtime settings of the research assistant: seven fields with defaults,
    overridable through the `configurable` entry of a run's configuration. */
module Config {
  import opened Wrappers

  /** A dynamically typed value as it appears in a run's configuration. The
      settings pass such values through without checking their type. */
  datatype Value = Null | Bool(b: bool) | Int(i: int) | Str(s: string) | Dict(entries: map<string, Value>)

  /** The run configuration handed to every node: absent (`None`) or a
      dictionary. When present, its "configurable" entry is a dictionary. */
  type RunnableConfig = Option<map<string, Value>>

  predicate WellFormed(config: RunnableConfig) {
    config.Some? && "configurable" in config.value ==> config.value["configurable"].Dict?
  }

  datatype Configuration = Configuration(
    model: Value,
    maxAnalysts: Value,
    maxInterviewTurns: Value,
    tavilyMaxResults: Value,
    arxivMaxDocs: Value,
    parallelInterviews: Value,
    enableCheckpointing: Value)

  /** `Configuration()`: every field at its declared default. */
  const Defaults: Configuration := Configuration(
    Str("azure/gpt-4.1"), Int(3), Int(3), Int(3), Int(3), Bool(true), Bool(true))

  /** The seven keys read from "configurable", in field order. */
  const Keys: seq<string> := [
    "model", "max_analysts", "max_interview_turns", "tavily_max_results",
    "arxiv_max_docs", "parallel_interviews", "enable_checkpointing"]

  /** The field a key names (Null for keys that name no field). */
  function Field(c: Configuration, key: string): Value {
    if key == "model" then c.model
    else if key == "max_analysts" then c.maxAnalysts
    else if key == "max_interview_turns" then c.maxInterviewTurns
    else if key == "tavily_max_results" then c.tavilyMaxResults
    else if key == "arxiv_max_docs" then c.arxivMaxDocs
    else if key == "parallel_interviews" then c.parallelInterviews
    else if key == "enable_checkpointing" then c.enableCheckpointing
    else Null
  }

  /** `d.get(key, default)`. */
  function Get(d: map<string, Value>, key: string, default: Value): Value {
    if key in d then d[key] else default
  }

  /** The "configurable" dictionary, or `{}` when the configuration is absent,
      empty (falsy) or has no such entry. */
  function Configurable(config: RunnableConfig): (d: map<string, Value>)
    requires WellFormed(config)
    ensures config.None? || config.value == map[] || "configurable" !in config.value ==> d == map[]
    ensures config.Some? && "configurable" in config.value ==> d == config.value["configurable"].entries
  {
    if config.Some? && config.value != map[] && "configurable" in config.value
    then config.value["configurable"].entries
    else map[]
  }

  /** `Configuration.from_runnable_config(config)`. */
  function FromRunnableConfig(config: RunnableConfig): Configuration
    requires WellFormed(config)
  {
    var d := Configurable(config);
    Configuration(
      Get(d, "model", Defaults.model),
      Get(d, "max_analysts", Defaults.maxAnalysts),
      Get(d, "max_interview_turns", Defaults.maxInterviewTurns),
      Get(d, "tavily_max_results", Defaults.tavilyMaxResults),
      Get(d, "arxiv_max_docs", Defaults.arxivMaxDocs),
      Get(d, "parallel_interviews", Defaults.parallelInterviews),
      Get(d, "enable_checkpointing", Defaults.enableCheckpointing))
  }

  /** No configuration, an empty one, or one without "configurable" gives the defaults. */
  lemma DefaultsWhenNothingConfigured(config: RunnableConfig)
    requires WellFormed(config)
    requires config.None? || config.value == map[] || "configurable" !in config.value
    ensures FromRunnableConfig(config) == Defaults
  {
  }

  /** Each of the seven keys overrides exactly its own field, with the value
      unchanged; a key that is absent leaves its field at the default. */
  lemma {:induction false} EachKeyOverridesItsField(config: RunnableConfig, key: string)
    requires WellFormed(config) && key in Keys
    ensures var d := Configurable(config);
      Field(FromRunnableConfig(config), key) == if key in d then d[key] else Field(Defaults, key)
  {
  }

  /** Two dictionaries agree on a key: both lack it, or both map it to the same value. */
  predicate SameEntry(d1: map<string, Value>, d2: map<string, Value>, k: string) {
    (k in d1 <==> k in d2) && (k in d1 ==> d1[k] == d2[k])
  }

  /** Keys other than the seven have no effect. */
  lemma OtherKeysIgnored(c1: RunnableConfig, c2: RunnableConfig)
    requires WellFormed(c1) && WellFormed(c2)
    requires forall k :: k in Keys ==> SameEntry(Configurable(c1), Configurable(c2), k)
    ensures FromRunnableConfig(c1) == FromRunnableConfig(c2)
  {
    assert "model" in Keys && "max_analysts" in Keys && "max_interview_turns" in Keys;
    assert "tavily_max_results" in Keys && "arxiv_max_docs" in Keys;
    assert "parallel_interviews" in Keys && "enable_checkpointing" in Keys;
  }

  /** The documented [1, 10] ranges are never enforced: an out-of-range
      value reaches the settings as given. */
  lemma RangesNotEnforced(n: int)
    ensures var c := Some(map["configurable" := Dict(map["max_analysts" := Int(n), "max_interview_turns" := Int(n)])]);
      FromRunnableConfig(c).maxAnalysts == Int(n) && FromRunnableConfig(c).maxInterviewTurns == Int(n)
  {
  }
}
