/**
 * The conversation session of the CCUS agent page: the transcript of turns,
 * the active thread, and the pending question, with the two handlers that
 * change them ("Start New Conversation" and the query submitted from the
 * form). Every call to the agent service is replaced by its outcome, which
 * the caller supplies.
 */
module Conversation {
  import opened Wrappers
  import opened Reply

  datatype Role = User | Assistant

  /** One turn of the transcript shown on the page. */
  datatype Turn = Turn(role: Role, content: string)

  /** The session's values: `messages`, `thread_id` and `question`. */
  datatype State = State(messages: seq<Turn>, threadId: Option<string>, question: string)

  /** The sidebar's connection string and agent id. */
  datatype Config = Config(connStr: string, agentId: string)

  /** The calls a query makes on the agent service, in the order it makes them. */
  datatype Call =
    | FromConnectionString(connStr: string)
    | GetAgent(agentId: string)
    | GetThread(threadId: string)
    | CreateMessage(threadId: string, role: string, content: string)
    | CreateAndProcessRun(threadId: string, agentId: string)
    | ListMessages(threadId: string)

  /** Which of those calls raised. */
  datatype Stage = ClientStage | AgentStage | ThreadStage | PostStage | RunStage | ListStage

  /** What the agent service does with one query: one of its calls raises,
      or all succeed and the listing is returned (`None` when the listing
      has no `data`). */
  datatype Remote = Raises(at: Stage, error: string) | Lists(listing: Option<seq<Msg>>)

  /** How a query ended. */
  datatype QueryStatus =
    | EmptyQuestion                        // "Please enter a question."
    | NotReady                             // "Please start a new conversation first."
    | Answered(reply: string)
    | RemoteError(at: Stage, error: string)
    | EmptyResponse(why: ReplyError)

  /** The new session values, the calls made and the status of one query. */
  datatype QueryOutcome = QueryOutcome(state: State, calls: seq<Call>, status: QueryStatus)

  /** The values a fresh session starts with. */
  function Initial(): State {
    State([], None, "")
  }

  function StageIndex(s: Stage): nat {
    match s
    case ClientStage => 0
    case AgentStage => 1
    case ThreadStage => 2
    case PostStage => 3
    case RunStage => 4
    case ListStage => 5
  }

  /** The calls a query on thread `tid` makes when none of them raises. The
      thread and agent the service hands back are taken to carry the ids
      they were fetched by. */
  function Plan(cfg: Config, tid: string, q: string): seq<Call> {
    [ FromConnectionString(cfg.connStr), GetAgent(cfg.agentId), GetThread(tid),
      CreateMessage(tid, "user", q), CreateAndProcessRun(tid, cfg.agentId), ListMessages(tid) ]
  }

  /** The question was posted to the thread before the query ended. */
  predicate Posted(remote: Remote) {
    remote.Lists? || StageIndex(remote.at) > StageIndex(PostStage)
  }

  /** The effect of `process_query` on the session values. */
  function Query(s: State, cfg: Config, remote: Remote): QueryOutcome {
    if s.question == "" then QueryOutcome(s, [], EmptyQuestion)
    else if s.threadId.None? then QueryOutcome(s, [], NotReady)
    else
      var tid := s.threadId.value;
      var asked := s.messages + [Turn(User, s.question)];
      var plan := Plan(cfg, tid, s.question);
      var left := if Posted(remote) then "" else s.question;
      match remote
      case Raises(at, e) =>
        QueryOutcome(State(asked, s.threadId, left), plan[..StageIndex(at) + 1], RemoteError(at, e))
      case Lists(listing) =>
        match ExtractReply(listing)
        case Ok(text) => QueryOutcome(State(asked + [Turn(Assistant, text)], s.threadId, left), plan, Answered(text))
        case Err(why) => QueryOutcome(State(asked, s.threadId, left), plan, EmptyResponse(why))
  }

  /** What the page keeps true of a session: there is no transcript without
      a thread, no user turn is empty, and every assistant turn directly
      follows a user turn. */
  predicate Consistent(s: State) {
    (s.threadId.None? ==> s.messages == []) &&
    (forall i :: 0 <= i < |s.messages| && s.messages[i].role == User ==> s.messages[i].content != "") &&
    (forall i :: 0 <= i < |s.messages| && s.messages[i].role == Assistant ==>
       0 < i && s.messages[i - 1].role == User)
  }

  /** An empty question, or a missing thread, ends the query before any
      call, and nothing in the session changes. */
  lemma QueryGuards(s: State, cfg: Config, remote: Remote)
    requires s.question == "" || s.threadId.None?
    ensures Query(s, cfg, remote).state == s
    ensures Query(s, cfg, remote).calls == []
    ensures Query(s, cfg, remote).status == (if s.question == "" then EmptyQuestion else NotReady)
  {
  }

  /** Past the guards, the user turn is appended first; the transcript grows
      by two turns (user, then assistant) on an answer and by one turn on
      every failure, and the earlier turns stay as they were. */
  lemma QueryTranscript(s: State, cfg: Config, remote: Remote)
    requires s.question != "" && s.threadId.Some?
    ensures var r := Query(s, cfg, remote);
      r.state.threadId == s.threadId &&
      |r.state.messages| == |s.messages| + (if r.status.Answered? then 2 else 1) &&
      r.state.messages[..|s.messages|] == s.messages &&
      r.state.messages[|s.messages|] == Turn(User, s.question) &&
      (r.status.Answered? ==> r.state.messages[|s.messages| + 1] == Turn(Assistant, r.status.reply))
  {
  }

  /** Past the guards, a query answers exactly when every call succeeds and
      the listing yields a reply, and the answer is that reply. */
  lemma QueryAnswers(s: State, cfg: Config, remote: Remote, text: string)
    requires s.question != "" && s.threadId.Some?
    ensures Query(s, cfg, remote).status == Answered(text) <==>
      remote.Lists? && ExtractReply(remote.listing) == Ok(text)
    ensures remote.Lists? && ExtractReply(remote.listing).Err? ==>
      Query(s, cfg, remote).status == EmptyResponse(ExtractReply(remote.listing).error)
    ensures remote.Raises? ==> Query(s, cfg, remote).status == RemoteError(remote.at, remote.error)
  {
  }

  /** Past the guards, the calls are made in order up to the one that
      raises, the question sent is the pending one, and the pending question
      is cleared exactly when sending it succeeded. */
  lemma QueryCallsAndQuestion(s: State, cfg: Config, remote: Remote)
    requires s.question != "" && s.threadId.Some?
    ensures var r := Query(s, cfg, remote);
      var plan := Plan(cfg, s.threadId.value, s.question);
      r.calls == (if remote.Raises? then plan[..StageIndex(remote.at) + 1] else plan) &&
      (CreateMessage(s.threadId.value, "user", s.question) in r.calls <==>
         remote.Lists? || StageIndex(remote.at) >= StageIndex(PostStage)) &&
      (r.state.question == "" <==> Posted(remote)) &&
      (!Posted(remote) ==> r.state.question == s.question)
  {
    var plan := Plan(cfg, s.threadId.value, s.question);
    var post := CreateMessage(s.threadId.value, "user", s.question);
    assert plan[3] == post;
    if remote.Raises? {
      var prefix := plan[..StageIndex(remote.at) + 1];
      if StageIndex(remote.at) < 3 {
        assert forall c :: c in prefix ==> !c.CreateMessage?;
      } else {
        assert prefix[3] == post;
      }
    }
  }

  /** A query keeps the session consistent. */
  lemma QueryKeepsConsistent(s: State, cfg: Config, remote: Remote)
    requires Consistent(s)
    ensures Consistent(Query(s, cfg, remote).state)
  {
  }

  /** With no thread, asking "What is CCUS?" is refused and records no turn. */
  lemma NoThreadScenario(cfg: Config, remote: Remote)
    ensures var r := Query(State([], None, "What is CCUS?"), cfg, remote);
      r.status == NotReady && r.state.messages == [] && r.calls == []
  {
  }

  /** With a thread, an assistant reply "CCUS stands for..." records the
      question and then the reply. */
  lemma AnswerScenario(cfg: Config, tid: string, earlier: seq<Msg>)
    ensures var reply := Msg("assistant", [Block(Some("text"), "CCUS stands for...")]);
      var r := Query(State([], Some(tid), "What is CCUS?"), cfg, Lists(Some(earlier + [reply])));
      r.status == Answered("CCUS stands for...") &&
      r.state.messages == [Turn(User, "What is CCUS?"), Turn(Assistant, "CCUS stands for...")]
  {
  }

  /** The session of one user of the page. */
  class Session {
    var messages: seq<Turn>
    var threadId: Option<string>
    var question: string

    function Snapshot(): State
      reads this
    {
      State(messages, threadId, question)
    }

    ghost predicate Valid()
      reads this
    {
      Consistent(Snapshot())
    }

    /** A new session: no turns, no thread, an empty question. */
    constructor ()
      ensures Snapshot() == Initial()
      ensures Valid()
    {
      messages := [];
      threadId := None;
      question := "";
    }

    /** "Start New Conversation": `created` is the outcome of making the
        client and creating the thread, the new thread's id or the error
        raised. */
    method StartNewThread(created: Result<string, string>)
      modifies this
      ensures old(Valid()) ==> Valid()
      ensures created.Ok? ==> threadId == Some(created.value) && messages == []
      ensures created.Err? ==> threadId == old(threadId) && messages == old(messages)
      ensures question == old(question)
    {
      if created.Ok? {
        threadId := Some(created.value);
        messages := [];
      }
    }

    /** `process_query`, with the agent service answering as `remote`. */
    method ProcessQuery(cfg: Config, remote: Remote) returns (calls: seq<Call>, status: QueryStatus)
      modifies this
      ensures old(Valid()) ==> Valid()
      ensures Query(old(Snapshot()), cfg, remote) == QueryOutcome(Snapshot(), calls, status)
    {
      ghost var s := Snapshot();
      if Consistent(s) {
        QueryKeepsConsistent(s, cfg, remote);
      }
      if question == "" {
        return [], EmptyQuestion;
      }
      if threadId.None? {
        return [], NotReady;
      }
      messages := messages + [Turn(User, question)];
      var tid := threadId.value;
      calls := [FromConnectionString(cfg.connStr)];
      if remote.Raises? && remote.at == ClientStage {
        return calls, RemoteError(remote.at, remote.error);
      }
      calls := calls + [GetAgent(cfg.agentId)];
      if remote.Raises? && remote.at == AgentStage {
        return calls, RemoteError(remote.at, remote.error);
      }
      calls := calls + [GetThread(tid)];
      if remote.Raises? && remote.at == ThreadStage {
        return calls, RemoteError(remote.at, remote.error);
      }
      calls := calls + [CreateMessage(tid, "user", question)];
      if remote.Raises? && remote.at == PostStage {
        return calls, RemoteError(remote.at, remote.error);
      }
      question := "";
      calls := calls + [CreateAndProcessRun(tid, cfg.agentId)];
      if remote.Raises? && remote.at == RunStage {
        return calls, RemoteError(remote.at, remote.error);
      }
      calls := calls + [ListMessages(tid)];
      if remote.Raises? {
        return calls, RemoteError(remote.at, remote.error);
      }
      var reply := SelectReply(remote.listing);
      if reply.Ok? {
        messages := messages + [Turn(Assistant, reply.value)];
        status := Answered(reply.value);
      } else {
        status := EmptyResponse(reply.error);
      }
    }

    /** Submitting the form: the text area's value becomes the question,
        which is then processed. */
    method Submit(userQuestion: string, cfg: Config, remote: Remote) returns (calls: seq<Call>, status: QueryStatus)
      modifies this
      ensures old(Valid()) ==> Valid()
      ensures Query(old(Snapshot()).(question := userQuestion), cfg, remote) == QueryOutcome(Snapshot(), calls, status)
    {
      question := userQuestion;
      calls, status := ProcessQuery(cfg, remote);
    }
  }
}
