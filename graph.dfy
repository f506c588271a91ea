/** The deterministic parts of the research graph: the interview router, the
    interview subgraph's transition table, the fan-out of one interview per
    analyst, the writers' shared input, and the assembly of the final report. */
module Graph {
  import opened Wrappers
  import opened PyStrings
  import opened Config
  import opened State
  import opened Utils
  import opened Oracles

  // ---------------------------------------------------------------------------
  // Interview routing
  // ---------------------------------------------------------------------------

  /** The nodes of the interview subgraph, with its entry and exit points. */
  datatype Node = Start | AskQuestion | SearchWeb | SearchArxiv | AnswerQuestion
                | SaveInterview | WriteSection | End

  const ExpertName: string := "expert"
  const ClosingPhrase: string := "Thank you so much for your help"
  const DefaultMaxNumTurns: int := 3
  const IndexErrorText: string := "list index out of range"

  /** `isinstance(m, AIMessage) and m.name == name`. */
  predicate IsResponseFrom(m: Message, name: string) {
    m.role == AI && m.name == Some(name)
  }

  /** The length of the list of messages that are AI messages with the given name. */
  function ExpertCount(messages: seq<Message>, name: string): nat
    decreases |messages|
  {
    if messages == [] then 0
    else (if IsResponseFrom(messages[0], name) then 1 else 0) + ExpertCount(messages[1..], name)
  }

  /** `route_messages(state, name)`: the next node after an answer. The turn
      limit is the state's `max_num_turns`, 3 when absent. Below the limit the
      second-to-last message decides, and reading it fails with IndexError
      when there are fewer than two messages. */
  function RouteMessages(messages: seq<Message>, maxNumTurns: Option<int>, name: string): (r: Result<Node>)
    ensures r.Success? ==> r.value == AskQuestion || r.value == SaveInterview
  {
    if ExpertCount(messages, name) >= maxNumTurns.GetOr(DefaultMaxNumTurns) then Success(SaveInterview)
    else if |messages| < 2 then Failure(IndexErrorText)
    else if Contains(messages[|messages| - 2].content, ClosingPhrase) then Success(SaveInterview)
    else Success(AskQuestion)
  }

  /** Two histories with the same roles and names, whatever their contents. */
  predicate SameTags(ms1: seq<Message>, ms2: seq<Message>) {
    |ms1| == |ms2|
    && forall i :: 0 <= i < |ms1| ==> ms1[i].role == ms2[i].role && ms1[i].name == ms2[i].name
  }

  /** The count reads only roles and names. */
  lemma {:induction false} ExpertCountReadsOnlyTags(ms1: seq<Message>, ms2: seq<Message>, name: string)
    requires SameTags(ms1, ms2)
    ensures ExpertCount(ms1, name) == ExpertCount(ms2, name)
    decreases |ms1|
  {
    if ms1 != [] {
      ExpertCountReadsOnlyTags(ms1[1..], ms2[1..], name);
    }
  }

  /** At the turn limit the route is "save_interview" without reading any
      message content: histories differing only in content route alike. */
  lemma RouteSavesAtLimit(ms1: seq<Message>, ms2: seq<Message>, maxNumTurns: Option<int>, name: string)
    requires SameTags(ms1, ms2)
    requires ExpertCount(ms1, name) >= maxNumTurns.GetOr(DefaultMaxNumTurns)
    ensures RouteMessages(ms1, maxNumTurns, name) == Success(SaveInterview)
    ensures RouteMessages(ms2, maxNumTurns, name) == Success(SaveInterview)
  {
    ExpertCountReadsOnlyTags(ms1, ms2, name);
  }

  /** Appending a message raises the count by one exactly when it is an AI
      message with the name: human messages and unnamed AI questions are
      never counted. */
  lemma {:induction false} ExpertCountAppend(messages: seq<Message>, m: Message, name: string)
    ensures ExpertCount(messages + [m], name)
            == ExpertCount(messages, name) + (if IsResponseFrom(m, name) then 1 else 0)
    decreases |messages|
  {
    if messages == [] {
      assert messages + [m] == [m];
    } else {
      assert (messages + [m])[1..] == messages[1..] + [m];
      ExpertCountAppend(messages[1..], m, name);
    }
  }

  /** Below the limit, the route is "save_interview" exactly when the
      second-to-last message contains the closing phrase anywhere, and
      "ask_question" otherwise; with fewer than two messages it fails. */
  lemma RouteBelowLimit(messages: seq<Message>, maxNumTurns: Option<int>, name: string)
    requires ExpertCount(messages, name) < maxNumTurns.GetOr(DefaultMaxNumTurns)
    ensures |messages| < 2 <==> RouteMessages(messages, maxNumTurns, name).Failure?
    ensures |messages| >= 2 ==>
      (RouteMessages(messages, maxNumTurns, name) == Success(SaveInterview)
       <==> Contains(messages[|messages| - 2].content, ClosingPhrase))
    ensures |messages| >= 2 ==>
      (RouteMessages(messages, maxNumTurns, name) == Success(AskQuestion)
       <==> !Contains(messages[|messages| - 2].content, ClosingPhrase))
  {
  }

  /** The phrase ends the interview wherever it stands in the question and
      whatever follows it, with or without a final "!". */
  lemma ClosingPhraseAnywhere(messages: seq<Message>, before: string, after: string, m: Message,
                              maxNumTurns: Option<int>, name: string)
    requires ExpertCount(messages + [m], name) < maxNumTurns.GetOr(DefaultMaxNumTurns)
    requires |messages| >= 1
    requires messages[|messages| - 1].content == before + ClosingPhrase + after
    ensures RouteMessages(messages + [m], maxNumTurns, name) == Success(SaveInterview)
  {
    var ms := messages + [m];
    assert ms[|ms| - 2] == messages[|messages| - 1];
    ContainsInfix(before, ClosingPhrase, after);
  }

  /** Without a `max_num_turns` entry the limit is 3. */
  lemma DefaultTurnLimit(messages: seq<Message>, name: string)
    ensures RouteMessages(messages, None, name) == RouteMessages(messages, Some(3), name)
  {
  }

  // ---------------------------------------------------------------------------
  // The interview subgraph's transition table
  // ---------------------------------------------------------------------------

  /** The nodes that run in the superstep after the given ones: every edge
      leaving an active node, with the router's choice after an answer. The
      two searches both lead to the answer, which runs once. */
  function Superstep(active: set<Node>, route: Node): set<Node> {
    (if Start in active then {AskQuestion} else {})
    + (if AskQuestion in active then {SearchWeb, SearchArxiv} else {})
    + (if SearchWeb in active || SearchArxiv in active then {AnswerQuestion} else {})
    + (if AnswerQuestion in active then {route} else {})
    + (if SaveInterview in active then {WriteSection} else {})
    + (if WriteSection in active then {End} else {})
  }

  /** One question round: ask, search the web and arXiv side by side, answer. */
  const Round: seq<set<Node>> := [{AskQuestion}, {SearchWeb, SearchArxiv}, {AnswerQuestion}]

  /** k rounds in a row: the question, then both searches together, then
      the answer, k times over. */
  function Rounds(k: nat): (r: seq<set<Node>>)
    ensures |r| == 3 * k
    ensures forall i :: 0 <= i < |r| ==> r[i] == Round[i % 3]
  {
    if k == 0 then [] else Round + Rounds(k - 1)
  }

  /** The supersteps of an interview of k rounds, from entry to exit. */
  function InterviewSupersteps(k: nat): (r: seq<set<Node>>)
    ensures |r| == 3 * k + 4
  {
    [{Start}] + Rounds(k) + [{SaveInterview}, {WriteSection}, {End}]
  }

  /** Each superstep follows from the one before under some router choice. */
  predicate FollowsTable(steps: seq<set<Node>>) {
    forall i :: 0 <= i < |steps| - 1 ==>
      steps[i + 1] == Superstep(steps[i], AskQuestion) || steps[i + 1] == Superstep(steps[i], SaveInterview)
  }

  /** The step after position i of a round. */
  lemma NextRoundStep(i: nat)
    ensures (i + 1) % 3 == if i % 3 == 2 then 0 else i % 3 + 1
  {
    var q := i / 3;
    if i % 3 == 2 {
      assert i + 1 == 3 * (q + 1);
    } else {
      assert i + 1 == 3 * q + (i % 3 + 1);
    }
  }

  lemma RoundsFollowTable(k: nat)
    ensures FollowsTable(Rounds(k) + [{SaveInterview}])
  {
    var rounds := Rounds(k);
    var s := rounds + [{SaveInterview}];
    assert Superstep({AnswerQuestion}, AskQuestion) == {AskQuestion};
    assert Superstep({AnswerQuestion}, SaveInterview) == {SaveInterview};
    assert Superstep({AskQuestion}, AskQuestion) == {SearchWeb, SearchArxiv};
    assert Superstep({SearchWeb, SearchArxiv}, AskQuestion) == {AnswerQuestion};
    forall i | 0 <= i < |s| - 1
      ensures s[i + 1] == Superstep(s[i], AskQuestion) || s[i + 1] == Superstep(s[i], SaveInterview)
    {
      assert s[i] == rounds[i] == Round[i % 3];
      if i + 1 < |rounds| {
        assert s[i + 1] == rounds[i + 1] == Round[(i + 1) % 3];
        NextRoundStep(i);
      } else {
        assert i % 3 == 2;
      }
    }
  }

  /** An interview of k >= 1 rounds is a run of the table: it enters at
      START, runs k rounds (routing back to the question after each answer
      but the last), then saves the interview, writes the section and exits. */
  lemma InterviewFollowsTable(k: nat)
    requires k >= 1
    ensures FollowsTable(InterviewSupersteps(k))
    ensures InterviewSupersteps(k)[0] == {Start}
    ensures InterviewSupersteps(k)[3 * k + 3] == {End}
  {
    RoundsFollowTable(k);
    var tail := Rounds(k) + [{SaveInterview}];
    var s := InterviewSupersteps(k);
    assert s == [{Start}] + tail + [{WriteSection}, {End}];
    assert Rounds(k)[0] == {AskQuestion};
    assert Superstep({Start}, AskQuestion) == {AskQuestion};
    assert Superstep({SaveInterview}, AskQuestion) == {WriteSection};
    assert Superstep({WriteSection}, AskQuestion) == {End};
    forall i | 0 <= i < |s| - 1
      ensures s[i + 1] == Superstep(s[i], AskQuestion) || s[i + 1] == Superstep(s[i], SaveInterview)
    {
      if 1 <= i < |s| - 3 {
        assert s[i] == tail[i - 1] && s[i + 1] == tail[i];
      }
    }
  }

  /** The number of supersteps in which the answer node runs. */
  function AnswerSteps(steps: seq<set<Node>>): nat
    decreases |steps|
  {
    if steps == [] then 0
    else (if AnswerQuestion in steps[0] then 1 else 0) + AnswerSteps(steps[1..])
  }

  /** An interview of k rounds answers in exactly k supersteps. */
  lemma {:induction false} AnswersPerInterview(k: nat)
    ensures AnswerSteps(InterviewSupersteps(k)) == k
  {
    RoundsAnswer(k, [{SaveInterview}, {WriteSection}, {End}]);
    assert InterviewSupersteps(k)[1..] == Rounds(k) + [{SaveInterview}, {WriteSection}, {End}];
  }

  lemma {:induction false} RoundsAnswer(k: nat, tail: seq<set<Node>>)
    requires AnswerSteps(tail) == 0
    ensures AnswerSteps(Rounds(k) + tail) == k
    decreases k
  {
    if k > 0 {
      var s := Rounds(k) + tail;
      RoundsAnswer(k - 1, tail);
      assert s == Round + (Rounds(k - 1) + tail);
      assert s[1..][1..][1..] == Rounds(k - 1) + tail;
      assert AnswerSteps(s) == AnswerSteps(s[1..]) by {
        assert s[0] == {AskQuestion};
      }
      assert AnswerSteps(s[1..]) == AnswerSteps(s[1..][1..]) by {
        assert s[1..][0] == {SearchWeb, SearchArxiv};
      }
      assert AnswerSteps(s[1..][1..]) == 1 + AnswerSteps(s[1..][1..][1..]) by {
        assert s[1..][1..][0] == {AnswerQuestion};
      }
    } else {
      assert Rounds(k) + tail == tail;
    }
  }

  // ---------------------------------------------------------------------------
  // Fan-out: one interview per analyst
  // ---------------------------------------------------------------------------

  /** The research graph's state; keys a node may read with `get` are optional. */
  datatype ResearchGraphState = ResearchGraphState(
    messages: seq<Message>,
    topic: Option<string>,
    maxAnalysts: Option<Value>,
    maxNumTurns: Option<int>,
    analysts: seq<Analyst>,
    sections: seq<string>)

  /** The state a run starts from: only the input messages. */
  function InputState(messages: seq<Message>): ResearchGraphState {
    ResearchGraphState(messages, None, None, None, [], [])
  }

  /** `Send("conduct_interview", {...})`: the node to run and the interview's
      initial state. */
  datatype Send = Send(node: string, analyst: Analyst, messages: seq<Message>, maxNumTurns: int)

  const ConductInterview: string := "conduct_interview"

  /** The message every interview opens with. */
  function SeedMessage(topic: string): Message {
    HumanMessage("So you said you were writing an article on " + topic + "?")
  }

  /** `initiate_all_interviews(state)`. */
  function InitiateAllInterviews(state: ResearchGraphState): (sends: seq<Send>)
    ensures |sends| == |state.analysts|
    ensures forall i :: 0 <= i < |sends| ==>
      sends[i].node == ConductInterview && sends[i].analyst == state.analysts[i]
      && sends[i].messages == [SeedMessage(state.topic.GetOr(""))]
      && sends[i].maxNumTurns == state.maxNumTurns.GetOr(DefaultMaxNumTurns)
  {
    seq(|state.analysts|, i requires 0 <= i < |state.analysts| =>
      Send(ConductInterview, state.analysts[i], [SeedMessage(state.topic.GetOr(""))],
           state.maxNumTurns.GetOr(DefaultMaxNumTurns)))
  }

  function AnalystsOf(sends: seq<Send>): seq<Analyst>
    decreases |sends|
  {
    if sends == [] then [] else [sends[0].analyst] + AnalystsOf(sends[1..])
  }

  /** The interviews are the analysts, in order: reading back the analyst of
      each Send gives the analyst list. */
  lemma {:induction false} InterviewsFollowAnalysts(state: ResearchGraphState)
    ensures AnalystsOf(InitiateAllInterviews(state)) == state.analysts
    decreases |state.analysts|
  {
    if state.analysts != [] {
      var rest := state.(analysts := state.analysts[1..]);
      InterviewsFollowAnalysts(rest);
      assert InitiateAllInterviews(state)[1..] == InitiateAllInterviews(rest);
      assert state.analysts == [state.analysts[0]] + rest.analysts;
    }
  }

  /** Adding analysts adds their interviews after the existing ones. */
  lemma InterviewsOfMoreAnalysts(state: ResearchGraphState, more: seq<Analyst>)
    ensures InitiateAllInterviews(state.(analysts := state.analysts + more))
         == InitiateAllInterviews(state) + InitiateAllInterviews(state.(analysts := more))
  {
  }

  /** `create_analysts`: loads the model, takes the topic from the last message
      and stores the analysts the model proposes. It writes nothing else; in
      particular the topic is not stored. */
  function CreateAnalysts(state: ResearchGraphState, config: RunnableConfig, environ: map<string, string>,
                          llm: ChatReplies): (r: Result<ResearchGraphState>)
    requires WellFormed(config)
    ensures r.Success? <==> ChatModelFor(FromRunnableConfig(config), environ).Success? && state.messages != []
    ensures r.Success? ==> r.value == state.(analysts := r.value.analysts)
    ensures r.Success? ==>
      r.value.analysts == llm.analysts(ChatModelFor(FromRunnableConfig(config), environ).value,
                                       state.messages[|state.messages| - 1].content,
                                       state.maxAnalysts.GetOr(FromRunnableConfig(config).maxAnalysts))
  {
    var configuration := FromRunnableConfig(config);
    var model := ChatModelFor(configuration, environ);
    if model.Failure? then Failure(model.error)
    else if state.messages == [] then Failure(IndexErrorText)
    else
      var topic := state.messages[|state.messages| - 1].content;
      var maxAnalysts := state.maxAnalysts.GetOr(configuration.maxAnalysts);
      Success(state.(analysts := llm.analysts(model.value, topic, maxAnalysts)))
  }

  /** Both settings the interviews receive ignore what a run starts with:
      the topic the analysts were created for is never stored, so every seed
      asks about the empty topic, and the turn limit is 3 whatever
      `max_interview_turns` is configured to. */
  lemma InterviewsOfAFreshRun(messages: seq<Message>, config: RunnableConfig, environ: map<string, string>,
                              llm: ChatReplies)
    requires WellFormed(config)
    requires CreateAnalysts(InputState(messages), config, environ, llm).Success?
    ensures var sends := InitiateAllInterviews(CreateAnalysts(InputState(messages), config, environ, llm).value);
      forall i :: 0 <= i < |sends| ==>
        sends[i].messages == [HumanMessage("So you said you were writing an article on ?")]
        && sends[i].maxNumTurns == 3
  {
    assert "So you said you were writing an article on " + "" + "?"
        == "So you said you were writing an article on ?";
  }

  // ---------------------------------------------------------------------------
  // The three writers
  // ---------------------------------------------------------------------------

  /** `"\n\n".join(sections)`. */
  function FormattedSections(sections: seq<string>): string {
    Join(sections, "\n\n")
  }

  /** The sections text keeps list order: the sections of a longer list are
      the first list's text, a blank line, then the rest. */
  lemma FormattedSectionsInOrder(first: seq<string>, rest: seq<string>)
    requires first != [] && rest != []
    ensures FormattedSections(first + rest) == FormattedSections(first) + "\n\n" + FormattedSections(rest)
  {
    JoinAppend(first, rest, "\n\n");
  }

  /** The reply of one writer for the state's topic (empty when absent) and sections. */
  function WriteWith(writer: (ChatModel, string, string) -> string, state: ResearchGraphState,
                     config: RunnableConfig, environ: map<string, string>): Result<string>
    requires WellFormed(config)
  {
    var model := ChatModelFor(FromRunnableConfig(config), environ);
    if model.Failure? then Failure(model.error)
    else Success(writer(model.value, state.topic.GetOr(""), FormattedSections(state.sections)))
  }

  function WriteReport(state: ResearchGraphState, config: RunnableConfig, environ: map<string, string>,
                       llm: ChatReplies): Result<string>
    requires WellFormed(config)
  {
    WriteWith(llm.report, state, config, environ)
  }

  function WriteIntroduction(state: ResearchGraphState, config: RunnableConfig, environ: map<string, string>,
                             llm: ChatReplies): Result<string>
    requires WellFormed(config)
  {
    WriteWith(llm.introduction, state, config, environ)
  }

  function WriteConclusion(state: ResearchGraphState, config: RunnableConfig, environ: map<string, string>,
                           llm: ChatReplies): Result<string>
    requires WellFormed(config)
  {
    WriteWith(llm.conclusion, state, config, environ)
  }

  /** The three writers succeed or fail together, and all three are given the
      same topic and the same text: the sections joined by blank lines, in
      the order the interviews delivered them. */
  lemma WritersShareFormattedSections(state: ResearchGraphState, config: RunnableConfig,
                                      environ: map<string, string>, llm: ChatReplies)
    requires WellFormed(config)
    ensures var model := ChatModelFor(FromRunnableConfig(config), environ);
      var report := WriteReport(state, config, environ, llm);
      var intro := WriteIntroduction(state, config, environ, llm);
      var conclusion := WriteConclusion(state, config, environ, llm);
      && (report.Success? <==> model.Success?) && (intro.Success? <==> model.Success?)
      && (conclusion.Success? <==> model.Success?)
      && (model.Success? ==>
            var text := Join(state.sections, "\n\n");
            var topic := state.topic.GetOr("");
            report.value == llm.report(model.value, topic, text)
            && intro.value == llm.introduction(model.value, topic, text)
            && conclusion.value == llm.conclusion(model.value, topic, text))
  {
  }

  // ---------------------------------------------------------------------------
  // Final report
  // ---------------------------------------------------------------------------

  const InsightsHeading: string := "## Insights"
  const SourcesHeading: string := "## Sources"
  const SourcesSeparator: string := "\n## Sources\n"
  const MainIdeaDivider: string := "\n\n---\n\n## Main Idea\n\n"
  const Divider: string := "\n\n---\n\n"
  const SourcesTrailer: string := "\n\n## Sources\n"

  /** The characters `strip("## Insights")` removes. */
  const InsightsChars: set<char> := CharSet(InsightsHeading)

  /** A body that starts with "## Insights" is stripped, at both ends, of the
      characters of that heading. */
  function WithoutInsights(content: string): string {
    if StartsWith(content, InsightsHeading) then Strip(content, InsightsChars) else content
  }

  /** The body and the sources: the two parts when splitting at the sources
      separator gives exactly two, and otherwise the body unchanged with no
      sources, since the failed unpacking is swallowed. The cut is at the
      first separator: none starts inside the body. */
  function SplitSources(content: string): (r: (string, Option<string>))
    ensures r.1.None? ==> r.0 == content
    ensures r.1.Some? ==> content == r.0 + SourcesSeparator + r.1.value
                          && !Contains(r.0, SourcesSeparator) && !Contains(r.1.value, SourcesSeparator)
    ensures r.1.Some? ==> CutAtFirst(r.0, SourcesSeparator)
  {
    if Contains(content, SourcesHeading) then
      var parts := Split(content, SourcesSeparator);
      if |parts| == 2 then
        SplitLeftmost(content, SourcesSeparator);
        assert Join(parts, SourcesSeparator) == parts[0] + SourcesSeparator + Join(parts[1..], SourcesSeparator);
        assert parts[1..] == [parts[1]];
        (parts[0], Some(parts[1]))
      else (content, None)
    else (content, None)
  }

  /** The final document: introduction, main body, conclusion, then the
      sources when they were split off. */
  function FinalReport(introduction: string, content: string, conclusion: string): string {
    var (body, sources) := SplitSources(WithoutInsights(content));
    introduction + MainIdeaDivider + body + Divider + conclusion
      + (if sources.Some? then SourcesTrailer + sources.value else "")
  }

  /** The update `finalize_report` returns. */
  datatype ReportUpdate = ReportUpdate(finalReport: string, messages: seq<Message>)

  function FinalizeReport(introduction: string, content: string, conclusion: string): (u: ReportUpdate)
    ensures u.messages == [HumanMessage(u.finalReport)]
  {
    var report := FinalReport(introduction, content, conclusion);
    ReportUpdate(report, [HumanMessage(report)])
  }

  /** A body with neither heading is placed as it stands. */
  lemma FinalizePlain(introduction: string, content: string, conclusion: string)
    requires !StartsWith(content, InsightsHeading) && !Contains(content, SourcesHeading)
    ensures FinalizeReport(introduction, content, conclusion).finalReport
         == introduction + "\n\n---\n\n## Main Idea\n\n" + content + "\n\n---\n\n" + conclusion
  {
  }

  /** Right-stripping stops at a character outside the set. */
  lemma {:induction false} StripRightStops(a: string, b: string, cs: set<char>)
    requires a != [] && a[|a| - 1] !in cs
    ensures StripRight(a + b, cs) == a + StripRight(b, cs)
    decreases |b|
  {
    if b == [] {
      assert a + b == a;
    } else if b[|b| - 1] in cs {
      assert (a + b)[..|a + b| - 1] == a + b[..|b| - 1];
      StripRightStops(a, b[..|b| - 1], cs);
    }
  }

  /** Newline is not among the stripped characters, so a heading line
      "## Insights" leaves its newline in place; the end of the body loses
      any trailing run of `#`, space, `I`, `n`, `s`, `i`, `g`, `h`, `t`. */
  lemma InsightsHeadingLine(rest: string)
    ensures WithoutInsights("## Insights\n" + rest) == "\n" + StripRight(rest, InsightsChars)
  {
    var s := "## Insights\n" + rest;
    assert '\n' !in InsightsChars;
    assert s == InsightsHeading + ("\n" + rest);
    assert StartsWith(s, InsightsHeading);
    assert forall i :: 0 <= i < |InsightsHeading| ==> InsightsHeading[i] in InsightsChars;
    StripLeftPrefix(InsightsHeading, "\n" + rest, InsightsChars);
    assert StripLeft(s, InsightsChars) == "\n" + rest;
    StripRightStops("\n", rest, InsightsChars);
  }

  /** The split succeeds exactly when it yields two parts: then the body is
      the part before the separator and the part after it ends the report,
      after a "## Sources" heading. */
  lemma SourcesSplitSucceeds(content: string)
    ensures var parts := Split(content, SourcesSeparator);
      |parts| == 2 <==> SplitSources(content).1.Some?
    ensures var parts := Split(content, SourcesSeparator);
      |parts| == 2 ==> SplitSources(content) == (parts[0], Some(parts[1]))
  {
    var parts := Split(content, SourcesSeparator);
    if |parts| == 2 {
      assert Join(parts, SourcesSeparator) == parts[0] + SourcesSeparator + Join(parts[1..], SourcesSeparator);
      assert parts[1..] == [parts[1]];
      assert content == parts[0] + SourcesSeparator + parts[1];
      assert SourcesSeparator == "\n" + SourcesHeading + "\n";
      assert content == (parts[0] + "\n") + SourcesHeading + ("\n" + parts[1]);
      ContainsInfix(parts[0] + "\n", SourcesHeading, "\n" + parts[1]);
    }
  }

  /** On success the sources move to the very end of the report. The split
      is of the content after a leading "## Insights" is stripped. */
  lemma FinalizeWithSources(introduction: string, content: string, conclusion: string)
    requires |Split(WithoutInsights(content), SourcesSeparator)| == 2
    ensures var parts := Split(WithoutInsights(content), SourcesSeparator);
      FinalizeReport(introduction, content, conclusion).finalReport
      == introduction + "\n\n---\n\n## Main Idea\n\n" + parts[0] + "\n\n---\n\n" + conclusion
         + "\n\n## Sources\n" + parts[1]
  {
    SourcesSplitSucceeds(WithoutInsights(content));
  }

  /** Otherwise the body, with a leading "## Insights" stripped, stays whole
      and nothing is appended: no error escapes. */
  lemma FinalizeWithoutSources(introduction: string, content: string, conclusion: string)
    requires |Split(WithoutInsights(content), SourcesSeparator)| != 2
    ensures FinalizeReport(introduction, content, conclusion).finalReport
         == introduction + "\n\n---\n\n## Main Idea\n\n" + WithoutInsights(content) + "\n\n---\n\n" + conclusion
  {
    SourcesSplitSucceeds(WithoutInsights(content));
  }

  /** A pattern at the front counts once more than what follows it. */
  lemma {:induction false} OccurrencesGrowToTheLeft(a: string, b: string, p: string)
    requires |p| > 0
    ensures Occurrences(a + b, p) >= Occurrences(b, p)
    decreases |a|
  {
    if a != [] {
      if |a + b| >= |p| {
        assert (a + b)[1..] == a[1..] + b;
        assert Occurrences(a + b, p) >= Occurrences((a + b)[1..], p);
        OccurrencesGrowToTheLeft(a[1..], b, p);
      } else {
        assert Occurrences(b, p) == 0;
      }
    } else {
      assert a + b == b;
    }
  }

  lemma OccurrencesAtFront(p: string, b: string)
    requires |p| > 0
    ensures Occurrences(p + b, p) >= 1 + Occurrences(b, p)
  {
    assert (p + b)[..|p|] == p;
    assert (p + b)[1..] == p[1..] + b;
    OccurrencesGrowToTheLeft(p[1..], b, p);
  }

  /** Conversely, content that is a body cut at its first separator, the
      separator, and sources without one is split into exactly that body and
      those sources. */
  lemma SplitSourcesAtFirstCut(content: string, body: string, sources: string)
    requires content == body + SourcesSeparator + sources
    requires CutAtFirst(body, SourcesSeparator) && !Contains(sources, SourcesSeparator)
    ensures SplitSources(content) == (body, Some(sources))
  {
    var sep := SourcesSeparator;
    var parts := Split(content, sep);
    SplitLeftmost(content, sep);
    ContainsInfix(body, sep, sources);
    assert |parts| != 1;
    assert Join(parts, sep) == parts[0] + sep + Join(parts[1..], sep);
    FirstCutUnique(content, sep, body, sources, parts[0], Join(parts[1..], sep));
    if |parts| >= 3 {
      assert Join(parts[1..], sep) == parts[1] + sep + Join(parts[2..], sep);
      ContainsInfix(parts[1], sep, Join(parts[2..], sep));
      assert false;
    }
    assert parts[1..] == [parts[1]];
    SourcesSplitSucceeds(content);
  }

  /** The sources are kept exactly when `content.count("\n## Sources\n")`
      is one; with none or with several the body is left as it was. */
  lemma SourcesKeptIffOneSeparator(content: string)
    ensures SplitSources(content).1.Some? <==> Count(content, SourcesSeparator) == 1
  {
    SourcesSplitSucceeds(content);
    SplitCount(content, SourcesSeparator);
  }

  /** A separator that occurs exactly once, counting overlapping matches too,
      splits the body in two. */
  lemma SeparatorOnceSplitsInTwo(content: string)
    requires Occurrences(content, SourcesSeparator) == 1
    ensures |Split(content, SourcesSeparator)| == 2
  {
    var sep := SourcesSeparator;
    var parts := Split(content, sep);
    ContainsIffOccurs(content, sep);
    assert |parts| != 1;
    if |parts| >= 3 {
      var tail := Join(parts[2..], sep);
      assert Join(parts[1..], sep) == parts[1] + sep + tail;
      assert content == parts[0] + (sep + (parts[1] + (sep + tail)));
      OccurrencesGrowToTheLeft(parts[1], sep + tail, sep);
      OccurrencesAtFront(sep, parts[1] + (sep + tail));
      OccurrencesAtFront(sep, tail);
      OccurrencesGrowToTheLeft(parts[0], sep + (parts[1] + (sep + tail)), sep);
      assert false;
    }
  }
}
