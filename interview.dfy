/** The interview subgraph run for one analyst: a question-and-answer loop
    over a state whose message history and search context only grow, ending
    with the saved transcript and one report section. */
module Interview {
  import opened Wrappers
  import opened PyStrings
  import opened Config
  import opened State
  import opened Utils
  import opened Tools
  import opened Oracles
  import opened Graph

  function Max(a: int, b: int): int {
    if a >= b then a else b
  }

  /** The first `start` entries of s followed by the two entries each of
      its first j rounds added. */
  function Through<T>(s: seq<T>, start: nat, j: nat): seq<T>
    requires start + 2 * j <= |s|
  {
    s[..start + 2 * j]
  }

  /** The question of round j of a history that started with `start` messages. */
  function Asked(messages: seq<Message>, start: nat, j: nat): Message
    requires start + 2 * j < |messages|
  {
    messages[start + 2 * j]
  }

  /** The answer of round j of a history that started with `start` messages. */
  function Answered(messages: seq<Message>, start: nat, j: nat): Message
    requires start + 2 * j + 1 < |messages|
  {
    messages[start + 2 * j + 1]
  }

  /** After k rounds: the history is the old one followed by k pairs of an
      unnamed question and an expert answer, and the context is the old one
      followed by two search texts per round. */
  ghost predicate Grown(m0: seq<Message>, c0: seq<string>, messages: seq<Message>, context: seq<string>, k: nat) {
    && |messages| == |m0| + 2 * k && messages[..|m0|] == m0
    && (forall j :: 0 <= j < k ==>
          !IsResponseFrom(Asked(messages, |m0|, j), ExpertName)
          && IsResponseFrom(Answered(messages, |m0|, j), ExpertName))
    && |context| == |c0| + 2 * k && context[..|c0|] == c0
  }

  lemma GrowOneRound(m0: seq<Message>, c0: seq<string>, m1: seq<Message>, c1: seq<string>,
                     m2: seq<Message>, c2: seq<string>, k: nat)
    requires Grown(m0, c0, m1, c1, k)
    requires |m2| == |m1| + 2 && m2[..|m1|] == m1
    requires !IsResponseFrom(m2[|m1|], ExpertName) && IsResponseFrom(m2[|m1| + 1], ExpertName)
    requires |c2| == |c1| + 2 && c2[..|c1|] == c1
    ensures Grown(m0, c0, m2, c2, k + 1)
  {
    assert m2[..|m0|] == m1[..|m0|];
    assert c2[..|c0|] == c1[..|c0|];
    forall j | 0 <= j < k + 1
      ensures !IsResponseFrom(Asked(m2, |m0|, j), ExpertName) && IsResponseFrom(Answered(m2, |m0|, j), ExpertName)
    {
      if j < k {
        assert Asked(m2, |m0|, j) == Asked(m1, |m0|, j);
        assert Answered(m2, |m0|, j) == Answered(m1, |m0|, j);
      }
    }
  }

  /** One question round on a history and a context, as the subgraph's nodes
      compute it: the model's question joins the history, both searches pick
      their queries from that history, and the model's answer, renamed
      "expert", is given the context with both search texts. */
  function RoundResult(model: ChatModel, configuration: Configuration, llm: ChatReplies, services: Services,
                       analyst: Analyst, messages: seq<Message>, context: seq<string>): (r: (seq<Message>, seq<string>))
    ensures |r.0| == |messages| + 2 && r.0[..|messages|] == messages
    ensures |r.1| == |context| + 2 && r.1[..|context|] == context
    ensures RepliesAreAIMessages(llm) ==>
              !IsResponseFrom(r.0[|messages|], ExpertName) && IsResponseFrom(r.0[|messages| + 1], ExpertName)
  {
    var asked := messages + [llm.question(model, analyst.Persona(), messages)];
    var web := WebSearchText(services.tavily(configuration.tavilyMaxResults,
                                             llm.webQuery(model, asked).searchQuery));
    var arxiv := ArxivSearchText(services.arxiv(configuration.arxivMaxDocs,
                                                llm.arxivQuery(model, asked).searchQuery));
    var searched := context + [web, arxiv];
    (asked + [llm.answer(model, analyst.Persona(), searched, asked).(name := Some(ExpertName))], searched)
  }

  /** A round's effect on the history and the context. */
  type RoundStep = (seq<Message>, seq<string>) -> (seq<Message>, seq<string>)

  /** The round of the subgraph's nodes for this model, configuration,
      oracles and analyst. */
  function QuestionRound(model: ChatModel, configuration: Configuration, llm: ChatReplies, services: Services,
                         analyst: Analyst): RoundStep
  {
    (messages, context) => RoundResult(model, configuration, llm, services, analyst, messages, context)
  }

  /** A round keeps the history and the context and adds two entries to each. */
  ghost predicate Extends(step: RoundStep) {
    forall messages, context ::
      && |step(messages, context).0| == |messages| + 2 && step(messages, context).0[..|messages|] == messages
      && |step(messages, context).1| == |context| + 2 && step(messages, context).1[..|context|] == context
  }

  /** A round adds a question that is not an expert answer, then an expert answer. */
  ghost predicate AsksThenAnswers(step: RoundStep) {
    forall messages, context ::
      |step(messages, context).0| == |messages| + 2
      ==> !IsResponseFrom(step(messages, context).0[|messages|], ExpertName)
          && IsResponseFrom(step(messages, context).0[|messages| + 1], ExpertName)
  }

  lemma RoundExtends(model: ChatModel, configuration: Configuration, llm: ChatReplies, services: Services,
                     analyst: Analyst)
    ensures Extends(QuestionRound(model, configuration, llm, services, analyst))
    ensures RepliesAreAIMessages(llm) ==> AsksThenAnswers(QuestionRound(model, configuration, llm, services, analyst))
  {
    var step := QuestionRound(model, configuration, llm, services, analyst);
    forall messages, context
      ensures step(messages, context) == RoundResult(model, configuration, llm, services, analyst, messages, context)
    {
    }
  }

  /** The history and context after k rounds from m0 and c0. */
  ghost function AfterRounds(step: RoundStep, m0: seq<Message>, c0: seq<string>, k: nat): (r: (seq<Message>, seq<string>))
    ensures Extends(step) ==> |r.0| == |m0| + 2 * k && |r.1| == |c0| + 2 * k
    decreases k
  {
    if k == 0 then (m0, c0)
    else
      var before := AfterRounds(step, m0, c0, k - 1);
      step(before.0, before.1)
  }

  /** k rounds grow the history by k question-and-answer pairs and the
      context by two search texts per round, keeping what was there. */
  lemma {:induction false} AfterRoundsGrown(step: RoundStep, m0: seq<Message>, c0: seq<string>, k: nat)
    requires Extends(step) && AsksThenAnswers(step)
    ensures Grown(m0, c0, AfterRounds(step, m0, c0, k).0, AfterRounds(step, m0, c0, k).1, k)
    decreases k
  {
    if k > 0 {
      AfterRoundsGrown(step, m0, c0, k - 1);
      var before := AfterRounds(step, m0, c0, k - 1);
      var after := step(before.0, before.1);
      GrowOneRound(m0, c0, before.0, before.1, after.0, after.1, k - 1);
    }
  }

  /** The first j rounds of a k-round history are the j-round history. */
  lemma {:induction false} AfterRoundsPrefix(step: RoundStep, m0: seq<Message>, c0: seq<string>, j: nat, k: nat)
    requires Extends(step)
    requires j <= k
    ensures Through(AfterRounds(step, m0, c0, k).0, |m0|, j) == AfterRounds(step, m0, c0, j).0
    decreases k
  {
    if j < k {
      AfterRoundsPrefix(step, m0, c0, j, k - 1);
      var before := AfterRounds(step, m0, c0, k - 1).0;
      var after := AfterRounds(step, m0, c0, k).0;
      var n := |m0| + 2 * j;
      assert after[..n] == before[..n] by {
        assert after[..|before|] == before;
      }
    }
  }

  /** Round j + 1 of the history and context is one step from the prefixes
      left by round j. */
  ghost predicate StepAt(step: RoundStep, m0: seq<Message>, c0: seq<string>,
                         messages: seq<Message>, context: seq<string>, j: nat)
    requires |m0| + 2 * (j + 1) <= |messages| && |c0| + 2 * (j + 1) <= |context|
  {
    step(Through(messages, |m0|, j), Through(context, |c0|, j))
    == (Through(messages, |m0|, j + 1), Through(context, |c0|, j + 1))
  }

  /** Each of the k rounds that took m0 and c0 to the given history and
      context is one step from the prefixes before it. */
  ghost predicate StepsFrom(step: RoundStep, m0: seq<Message>, c0: seq<string>,
                            messages: seq<Message>, context: seq<string>, k: nat) {
    && |messages| == |m0| + 2 * k && messages[..|m0|] == m0
    && |context| == |c0| + 2 * k && context[..|c0|] == c0
    && forall j :: 0 <= j < k ==> StepAt(step, m0, c0, messages, context, j)
  }

  lemma StepsFromOneMore(step: RoundStep, m0: seq<Message>, c0: seq<string>,
                         m1: seq<Message>, c1: seq<string>, k: nat)
    requires Extends(step)
    requires StepsFrom(step, m0, c0, m1, c1, k)
    ensures StepsFrom(step, m0, c0, step(m1, c1).0, step(m1, c1).1, k + 1)
  {
    var m2 := step(m1, c1).0;
    var c2 := step(m1, c1).1;
    assert m2[..|m1|] == m1 && c2[..|c1|] == c1;
    assert m2[..|m0|] == m1[..|m0|];
    assert c2[..|c0|] == c1[..|c0|];
    forall j | 0 <= j < k + 1
      ensures StepAt(step, m0, c0, m2, c2, j)
    {
      if j < k {
        assert StepAt(step, m0, c0, m1, c1, j);
        assert Through(m2, |m0|, j) == Through(m1, |m0|, j);
        assert Through(m2, |m0|, j + 1) == Through(m1, |m0|, j + 1);
        assert Through(c2, |c0|, j) == Through(c1, |c0|, j);
        assert Through(c2, |c0|, j + 1) == Through(c1, |c0|, j + 1);
      } else {
        assert Through(m2, |m0|, j) == m1 && Through(c2, |c0|, j) == c1;
        assert Through(m2, |m0|, j + 1) == m2 && Through(c2, |c0|, j + 1) == c2;
      }
    }
  }

  /** A history and context reached by k such steps are those of `AfterRounds`. */
  lemma {:induction false} StepsFromAfterRounds(step: RoundStep, m0: seq<Message>, c0: seq<string>,
                                                messages: seq<Message>, context: seq<string>, k: nat)
    requires Extends(step)
    requires StepsFrom(step, m0, c0, messages, context, k)
    ensures (messages, context) == AfterRounds(step, m0, c0, k)
    decreases k
  {
    if k == 0 {
      assert messages == messages[..|m0|];
      assert context == context[..|c0|];
    } else {
      var pm := messages[..|m0| + 2 * (k - 1)];
      var pc := context[..|c0| + 2 * (k - 1)];
      assert pm[..|m0|] == m0 && pc[..|c0|] == c0;
      forall j | 0 <= j < k - 1
        ensures StepAt(step, m0, c0, pm, pc, j)
      {
        assert StepAt(step, m0, c0, messages, context, j);
        assert Through(pm, |m0|, j) == Through(messages, |m0|, j);
        assert Through(pm, |m0|, j + 1) == Through(messages, |m0|, j + 1);
        assert Through(pc, |c0|, j) == Through(context, |c0|, j);
        assert Through(pc, |c0|, j + 1) == Through(context, |c0|, j + 1);
      }
      StepsFromAfterRounds(step, m0, c0, pm, pc, k - 1);
      assert StepAt(step, m0, c0, messages, context, k - 1);
      assert pm == Through(messages, |m0|, k - 1) && pc == Through(context, |c0|, k - 1);
      assert step(pm, pc) == (Through(messages, |m0|, k), Through(context, |c0|, k));
      assert Through(messages, |m0|, k) == messages;
      assert Through(context, |c0|, k) == context;
    }
  }

  /** The router asked for another question on the history left by round j. */
  ghost predicate AskedAfter(messages: seq<Message>, start: nat, j: nat, maxNumTurns: Option<int>)
    requires start + 2 * j <= |messages|
  {
    RouteMessages(Through(messages, start, j), maxNumTurns, ExpertName) == Success(Node.AskQuestion)
  }

  /** The router's answers after each of rounds 1 to k - 1 of the history
      m1, which started from m0, survive one more round appended to it, and
      the answer after round k joins them. */
  lemma AskedOneMore(m0: seq<Message>, m1: seq<Message>, m2: seq<Message>, k: nat, maxNumTurns: Option<int>)
    requires |m1| == |m0| + 2 * k && |m1| <= |m2| && m2[..|m1|] == m1
    requires forall j :: 1 <= j < k ==> AskedAfter(m1, |m0|, j, maxNumTurns)
    requires k >= 1 ==> RouteMessages(m1, maxNumTurns, ExpertName) == Success(Node.AskQuestion)
    ensures forall j :: 1 <= j < k + 1 ==> AskedAfter(m2, |m0|, j, maxNumTurns)
  {
    forall j | 1 <= j < k + 1
      ensures AskedAfter(m2, |m0|, j, maxNumTurns)
    {
      if j < k {
        assert AskedAfter(m1, |m0|, j, maxNumTurns);
        assert Through(m2, |m0|, j) == Through(m1, |m0|, j);
      } else {
        assert Through(m2, |m0|, j) == m1;
      }
    }
  }

  /** The state of one interview (`InterviewState`), updated in place by the
      subgraph's nodes. */
  class InterviewSession {
    var analyst: Analyst
    var messages: seq<Message>
    var maxNumTurns: Option<int>
    /** Search results; updates are appended (`operator.add`). */
    var context: seq<string>
    var interview: Option<string>
    /** Written once, by the last node, with this interview's section alone. */
    var sections: seq<string>

    /** The interview's initial state, as a `Send` of the fan-out carries it. */
    constructor(send: Send)
      ensures analyst == send.analyst && messages == send.messages
      ensures maxNumTurns == Some(send.maxNumTurns)
      ensures context == [] && interview == None && sections == []
    {
      analyst := send.analyst;
      messages := send.messages;
      maxNumTurns := Some(send.maxNumTurns);
      context := [];
      interview := None;
      sections := [];
    }

    /** The turn limit the router applies. */
    function TurnLimit(): int
      reads this
    {
      maxNumTurns.GetOr(DefaultMaxNumTurns)
    }

    /** `generate_question`: the model's question joins the history. */
    method GenerateQuestion(model: ChatModel, llm: ChatReplies)
      modifies this
      ensures messages == old(messages) + [llm.question(model, analyst.Persona(), old(messages))]
      ensures analyst == old(analyst) && maxNumTurns == old(maxNumTurns) && context == old(context)
      ensures interview == old(interview) && sections == old(sections)
    {
      var question := llm.question(model, analyst.Persona(), messages);
      messages := messages + [question];
    }

    /** `search_web`: the model picks a query from the history; the search
      text, an error text included, is appended to the context. */
    method SearchWeb(model: ChatModel, config: RunnableConfig, llm: ChatReplies, services: Services)
      requires WellFormed(config)
      modifies this
      ensures context == old(context) + [WebSearchText(services.tavily(FromRunnableConfig(config).tavilyMaxResults,
                                                                         llm.webQuery(model, messages).searchQuery))]
      ensures analyst == old(analyst) && messages == old(messages) && maxNumTurns == old(maxNumTurns)
      ensures interview == old(interview) && sections == old(sections)
    {
      var tools := GetSearchTools(config);
      var query := llm.webQuery(model, messages);
      var results := tools.SearchWeb(query.searchQuery, services.tavily);
      context := context + [results];
    }

    /** `search_arxiv`: the same with the arXiv backend. */
    method SearchArxiv(model: ChatModel, config: RunnableConfig, llm: ChatReplies, services: Services)
      requires WellFormed(config)
      modifies this
      ensures context == old(context) + [ArxivSearchText(services.arxiv(FromRunnableConfig(config).arxivMaxDocs,
                                                                          llm.arxivQuery(model, messages).searchQuery))]
      ensures analyst == old(analyst) && messages == old(messages) && maxNumTurns == old(maxNumTurns)
      ensures interview == old(interview) && sections == old(sections)
    {
      var tools := GetSearchTools(config);
      var query := llm.arxivQuery(model, messages);
      var results := tools.SearchArxiv(query.searchQuery, services.arxiv);
      context := context + [results];
    }

    /** `generate_answer`: the model's answer, renamed "expert", joins the history. */
    method GenerateAnswer(model: ChatModel, llm: ChatReplies)
      modifies this
      ensures messages == old(messages)
                          + [llm.answer(model, analyst.Persona(), context, old(messages)).(name := Some(ExpertName))]
      ensures analyst == old(analyst) && maxNumTurns == old(maxNumTurns) && context == old(context)
      ensures interview == old(interview) && sections == old(sections)
    {
      var answer := llm.answer(model, analyst.Persona(), context, messages);
      answer := answer.(name := Some(ExpertName));
      messages := messages + [answer];
    }

    /** `save_interview`: the transcript of the whole history. */
    method SaveInterview(services: Services)
      modifies this
      ensures interview == Some(services.bufferString(messages))
      ensures analyst == old(analyst) && messages == old(messages) && maxNumTurns == old(maxNumTurns)
      ensures context == old(context) && sections == old(sections)
    {
      interview := Some(services.bufferString(messages));
    }

    /** `write_section`: one section from the analyst's focus and the context. */
    method WriteSection(model: ChatModel, llm: ChatReplies)
      modifies this
      ensures sections == [llm.section(model, analyst.description, context)]
      ensures analyst == old(analyst) && messages == old(messages) && maxNumTurns == old(maxNumTurns)
      ensures context == old(context) && interview == old(interview)
    {
      sections := [llm.section(model, analyst.description, context)];
    }

    /** One round: `ask_question`, then `search_web` and `search_arxiv` on the
      history with the question, then `answer_question` on the context with
      both results. */
    method AskAndAnswer(model: ChatModel, config: RunnableConfig, llm: ChatReplies, services: Services)
      requires WellFormed(config)
      requires RepliesAreAIMessages(llm)
      modifies this
      ensures (messages, context) == RoundResult(model, FromRunnableConfig(config), llm, services, analyst, old(messages), old(context))
      ensures !IsResponseFrom(messages[|old(messages)|], ExpertName)
      ensures IsResponseFrom(messages[|old(messages)| + 1], ExpertName)
      ensures ExpertCount(messages, ExpertName) == ExpertCount(old(messages), ExpertName) + 1
      ensures analyst == old(analyst) && maxNumTurns == old(maxNumTurns)
      ensures interview == old(interview) && sections == old(sections)
    {
      ghost var before := messages;
      ghost var round := RoundResult(model, FromRunnableConfig(config), llm, services, analyst, messages, context);
      GenerateQuestion(model, llm);
      ghost var asked := messages;
      ExpertCountAppend(before, asked[|asked| - 1], ExpertName);
      SearchWeb(model, config, llm, services);
      SearchArxiv(model, config, llm, services);
      assert context == round.1;
      GenerateAnswer(model, llm);
      assert messages == round.0;
      ExpertCountAppend(asked, messages[|messages| - 1], ExpertName);
    }

    /** One pass of the question loop: a round, then `route_messages`. The
      ghost parameters are the history and context the loop started from and
      the rounds run so far; the pass extends the loop's record of its rounds
      and routes from the new history. */
    method NextRound(model: ChatModel, config: RunnableConfig, llm: ChatReplies, services: Services,
                     ghost m0: seq<Message>, ghost c0: seq<string>, ghost k: nat)
      returns (route: Node)
      requires WellFormed(config)
      requires RepliesAreAIMessages(llm)
      requires StepsFrom(QuestionRound(model, FromRunnableConfig(config), llm, services, analyst), m0, c0, messages, context, k)
      requires forall j :: 1 <= j < k ==> AskedAfter(messages, |m0|, j, maxNumTurns)
      requires k >= 1 ==> RouteMessages(messages, maxNumTurns, ExpertName) == Success(Node.AskQuestion)
      modifies this
      ensures analyst == old(analyst) && maxNumTurns == old(maxNumTurns)
      ensures interview == old(interview) && sections == old(sections)
      ensures StepsFrom(QuestionRound(model, FromRunnableConfig(config), llm, services, analyst), m0, c0, messages, context, k + 1)
      ensures forall j :: 1 <= j < k + 1 ==> AskedAfter(messages, |m0|, j, maxNumTurns)
      ensures ExpertCount(messages, ExpertName) == ExpertCount(old(messages), ExpertName) + 1
      ensures RouteMessages(messages, maxNumTurns, ExpertName) == Success(route)
    {
      ghost var step := QuestionRound(model, FromRunnableConfig(config), llm, services, analyst);
      RoundExtends(model, FromRunnableConfig(config), llm, services, analyst);
      ghost var m1 := messages;
      ghost var c1 := context;
      AskAndAnswer(model, config, llm, services);
      assert (messages, context) == step(m1, c1);
      StepsFromOneMore(step, m0, c0, m1, c1, k);
      AskedOneMore(m0, m1, messages, k, maxNumTurns);
      var next := RouteMessages(messages, maxNumTurns, ExpertName);
      if next.Failure? {
        assert false;
      }
      route := next.value;
    }

    /** The question loop, from START until the router first answers
      "save_interview". After `rounds` rounds the history and the context are
      those of `rounds` steps of `RoundResult` from the old ones, grown by one
      question-and-answer pair and two search texts per round; the router
      asked for another question after every earlier round and asks to save
      after the last one. The count of expert answers rises by one per round,
      so the loop stops after at most max(1, limit - answers already present)
      rounds. */
    method QuestionLoop(model: ChatModel, config: RunnableConfig, llm: ChatReplies, services: Services)
      returns (ghost rounds: nat)
      requires WellFormed(config)
      requires RepliesAreAIMessages(llm)
      modifies this
      ensures analyst == old(analyst) && maxNumTurns == old(maxNumTurns)
      ensures interview == old(interview) && sections == old(sections)
      ensures rounds >= 1
      ensures rounds == 1 || ExpertCount(old(messages), ExpertName) + rounds <= old(TurnLimit())
      ensures Grown(old(messages), old(context), messages, context, rounds)
      ensures ExpertCount(messages, ExpertName) == ExpertCount(old(messages), ExpertName) + rounds
      ensures (messages, context)
              == AfterRounds(QuestionRound(model, FromRunnableConfig(config), llm, services, analyst),
                             old(messages), old(context), rounds)
      ensures forall j :: 1 <= j < rounds ==>
                RouteMessages(Through(messages, |old(messages)|, j), maxNumTurns, ExpertName) == Success(Node.AskQuestion)
      ensures RouteMessages(messages, maxNumTurns, ExpertName) == Success(Node.SaveInterview)
    {
      rounds := 0;
      ghost var step := QuestionRound(model, FromRunnableConfig(config), llm, services, analyst);
      ghost var m0 := messages;
      ghost var c0 := context;
      ghost var limit := TurnLimit();
      ghost var count0 := ExpertCount(m0, ExpertName);
      var route := Node.AskQuestion;
      while route == Node.AskQuestion
        invariant route == Node.AskQuestion || route == Node.SaveInterview
        invariant analyst == old(analyst) && maxNumTurns == old(maxNumTurns)
        invariant interview == old(interview) && sections == old(sections)
        invariant rounds <= 1 || count0 + rounds <= limit
        invariant StepsFrom(step, m0, c0, messages, context, rounds)
        invariant ExpertCount(messages, ExpertName) == count0 + rounds
        invariant forall j :: 1 <= j < rounds ==> AskedAfter(messages, |m0|, j, maxNumTurns)
        invariant route == Node.AskQuestion && rounds > 0 ==>
                    count0 + rounds < limit && RouteMessages(messages, maxNumTurns, ExpertName) == Success(Node.AskQuestion)
        invariant route == Node.SaveInterview ==>
                    rounds >= 1 && RouteMessages(messages, maxNumTurns, ExpertName) == Success(Node.SaveInterview)
        decreases if route == Node.AskQuestion then Max(0, limit - count0 - rounds) + 1 else 0
      {
        route := NextRound(model, config, llm, services, m0, c0, rounds);
        rounds := rounds + 1;
      }
      RoundExtends(model, FromRunnableConfig(config), llm, services, analyst);
      StepsFromAfterRounds(step, m0, c0, messages, context, rounds);
      AfterRoundsGrown(step, m0, c0, rounds);
      forall j | 1 <= j < rounds
        ensures RouteMessages(Through(messages, |m0|, j), maxNumTurns, ExpertName) == Success(Node.AskQuestion)
      {
        assert AskedAfter(messages, |m0|, j, maxNumTurns);
      }
    }

  /** The whole subgraph. When the model setting does not load, the first
      node fails and nothing changes. Otherwise the question loop runs, the
      transcript is saved and one section is written. */
    method Conduct(config: RunnableConfig, llm: ChatReplies, services: Services)
      returns (error: Option<string>, ghost rounds: nat)
      requires WellFormed(config)
      requires RepliesAreAIMessages(llm)
      modifies this
      ensures var model := ChatModelFor(FromRunnableConfig(config), services.environ);
        error.Some? <==> model.Failure?
      ensures error.Some? ==> error.value == ChatModelFor(FromRunnableConfig(config), services.environ).error
      ensures error.Some? ==> messages == old(messages) && context == old(context)
                              && interview == old(interview) && sections == old(sections)
      ensures analyst == old(analyst) && maxNumTurns == old(maxNumTurns)
      ensures error.None? ==>
        && rounds >= 1
        && (rounds == 1 || ExpertCount(old(messages), ExpertName) + rounds <= TurnLimit())
        && Grown(old(messages), old(context), messages, context, rounds)
        && ExpertCount(messages, ExpertName) == ExpertCount(old(messages), ExpertName) + rounds
        && (messages, context)
           == AfterRounds(QuestionRound(ChatModelFor(FromRunnableConfig(config), services.environ).value,
                                        FromRunnableConfig(config), llm, services, analyst),
                          old(messages), old(context), rounds)
        && (forall j :: 1 <= j < rounds ==>
              RouteMessages(Through(messages, |old(messages)|, j), maxNumTurns, ExpertName) == Success(Node.AskQuestion))
        && RouteMessages(messages, maxNumTurns, ExpertName) == Success(Node.SaveInterview)
        && interview == Some(services.bufferString(messages))
        && sections == [llm.section(ChatModelFor(FromRunnableConfig(config), services.environ).value,
                                    analyst.description, context)]
    {
      var loaded := ChatModelFor(FromRunnableConfig(config), services.environ);
      if loaded.Failure? {
        return Some(loaded.error), 0;
      }
      var model := loaded.value;
      rounds := QuestionLoop(model, config, llm, services);
      SaveInterview(services);
      WriteSection(model, llm);
      error := None;
    }
  }

  /** A finished run of the subgraph for `send` on a fresh session: `rounds`
      question rounds from the `Send`'s messages and an empty context, the
      router asking again after every round but the last and saving after
      the last. */
  ghost predicate InterviewRun(model: ChatModel, configuration: Configuration, llm: ChatReplies,
                               services: Services, send: Send, rounds: nat,
                               messages: seq<Message>, context: seq<string>)
  {
    && rounds >= 1
    && (rounds == 1 || ExpertCount(send.messages, ExpertName) + rounds <= send.maxNumTurns)
    && (messages, context)
       == AfterRounds(QuestionRound(model, configuration, llm, services, send.analyst), send.messages, [], rounds)
    && |messages| == |send.messages| + 2 * rounds
    && (forall j :: 1 <= j < rounds ==>
          RouteMessages(Through(messages, |send.messages|, j), Some(send.maxNumTurns), ExpertName)
          == Success(Node.AskQuestion))
    && RouteMessages(messages, Some(send.maxNumTurns), ExpertName) == Success(Node.SaveInterview)
  }

  /** `s` is the section the model writes for the `Send`'s analyst from the
      context of a finished interview run for that `Send`. */
  ghost predicate WrittenFor(llm: ChatReplies, services: Services, model: Result<ChatModel>,
                             configuration: Configuration, send: Send, s: string) {
    && model.Success?
    && exists rounds: nat, messages, context ::
         && InterviewRun(model.value, configuration, llm, services, send, rounds, messages, context)
         && s == llm.section(model.value, send.analyst.description, context)
  }

  /** One `Send` run through the subgraph on a fresh session: it fails with
      the model-loading error, or returns the one section written for the
      `Send`'s analyst from the context its interview rounds gathered. */
  method RunInterview(send: Send, config: RunnableConfig, llm: ChatReplies, services: Services)
    returns (r: Result<string>, ghost rounds: nat, ghost messages: seq<Message>, ghost context: seq<string>)
    requires WellFormed(config)
    requires RepliesAreAIMessages(llm)
    ensures r.Failure? <==> ChatModelFor(FromRunnableConfig(config), services.environ).Failure?
    ensures r.Failure? ==> r.error == ChatModelFor(FromRunnableConfig(config), services.environ).error
    ensures r.Success? ==>
      && InterviewRun(ChatModelFor(FromRunnableConfig(config), services.environ).value, FromRunnableConfig(config),
                      llm, services, send, rounds, messages, context)
      && r.value == llm.section(ChatModelFor(FromRunnableConfig(config), services.environ).value,
                                send.analyst.description, context)
  {
    var session := new InterviewSession(send);
    var error;
    error, rounds := session.Conduct(config, llm, services);
    messages, context := session.messages, session.context;
    if error.Some? {
      return Failure(error.value), rounds, messages, context;
    }
    r := Success(session.sections[0]);
  }

  /** The fan-out run one interview after another, the first `Send`'s, then
    the rest: each `Send` starts an interview of its own, and each finished interview contributes its one
    section, so the sections channel receives exactly one entry per analyst.
    The parallel runs are taken here in `Send` order; in any other completion
    order the channel holds the same sections in that order
    (`State.SectionsFanIn`). */
  method ConductAll(sends: seq<Send>, config: RunnableConfig, llm: ChatReplies, services: Services)
    returns (r: Result<seq<string>>)
    requires WellFormed(config)
    requires RepliesAreAIMessages(llm)
    ensures r.Failure? <==> sends != [] && ChatModelFor(FromRunnableConfig(config), services.environ).Failure?
    ensures r.Failure? ==> r.error == ChatModelFor(FromRunnableConfig(config), services.environ).error
    ensures r.Success? ==> |r.value| == |sends|
    ensures r.Success? ==> forall i :: 0 <= i < |sends| ==>
      WrittenFor(llm, services, ChatModelFor(FromRunnableConfig(config), services.environ), FromRunnableConfig(config),
                 sends[i], r.value[i])
    decreases |sends|
  {
    if sends == [] {
      return Success([]);
    }
    var first, rounds, messages, context := RunInterview(sends[0], config, llm, services);
    if first.Failure? {
      return Failure(first.error);
    }
    var rest := ConductAll(sends[1..], config, llm, services);
    r := Success(AddReducer([first.value], rest.value));
    ghost var loaded := ChatModelFor(FromRunnableConfig(config), services.environ);
    forall k | 0 <= k < |sends|
      ensures WrittenFor(llm, services, loaded, FromRunnableConfig(config), sends[k], r.value[k])
    {
      if k == 0 {
        assert WrittenFor(llm, services, loaded, FromRunnableConfig(config), sends[0], first.value);
      } else {
        assert r.value[k] == rest.value[k - 1] && sends[k] == sends[1..][k - 1];
      }
    }
  }
}
