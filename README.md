# CCUS agent page: session and reply selection

This project models the session logic of the CCUS agent web page (`agent_app.py`), a Streamlit page for chatting with an agent hosted on Azure AI Projects. It covers two things.

- **The conversation session.** The session holds three values: the transcript `messages` (an ordered list of user and assistant turns), the optional `thread_id`, and the pending `question`. Two handlers change them. "Start New Conversation" opens a thread and clears the transcript. `process_query`, run when the form is submitted, does the following:
  - it refuses an empty question or a missing thread;
  - it records the user's turn;
  - it makes the service calls (get agent, get thread, post the message, run the agent, list the thread's messages);
  - it clears the question once the message is posted;
  - it records the assistant's answer if the listing yields one.
- **The reply-selection rule.** Among the listed messages, the last one with role `"assistant"` is chosen. Within it, the first content block of type `"text"` is taken. A missing `data` attribute and a listing without an assistant message both end in the error "No response received from the assistant." An assistant message without content ends in "No content found", and one whose content has no text block in "No text content found".

Each service call is replaced by its outcome, which the caller supplies. `Conversation.Remote` says which call raised, or gives the listing the service returned. Thread creation is a `Result` holding the new id or the error. Each query returns the calls it made, in order, so the model can state which calls happen at all.

Modules:
- `Wrappers` (`wrappers.dfy`): `Option` and `Result`.
- `Reply` (`reply.dfy`): listed messages and blocks, the selection function `ExtractReply`, and the page's collecting loop `SelectReply`, proved equal to it.
- `Conversation` (`conversation.dfy`): the session values as a `State` datatype, the effect of a query as the function `Query`, and the invariant `Consistent`. The class `Session` has the three fields the page mutates. `ProcessQuery` and `Submit` are proved to produce exactly `Query`'s new state, calls and status. `StartNewThread` states its new fields directly. All three keep `Consistent`. The lemmas state what the page promises about `Query`.

The question buffer is cleared only after `create_message` returns. A failure while building the client, getting the agent, getting the thread or posting the message leaves the question in place. `Conversation.QueryCallsAndQuestion` states this.

## Model

| member | source | states |
|---|---|---|
| `Reply.AssistantMessages` | agent_app.py:158-164 | every collected message has role "assistant", and no more messages are collected than were listed |
| `Reply.AssistantMessagesKept` | agent_app.py:161-164 | every listed message with role "assistant" is collected, and only listed messages are collected |
| `Reply.AssistantMessagesSplit` | agent_app.py:162-164 | collecting keeps list order: the assistant messages of `a + b` are those of `a` followed by those of `b` |
| `Reply.TextBlocks` | agent_app.py:171 | every kept content block has type "text", and no more blocks are kept than the message has |
| `Reply.TextBlocksKept` | agent_app.py:171 | every block of type "text" is kept, and only blocks of the message are kept |
| `Reply.TextBlocksSplit` | agent_app.py:171 | filtering keeps block order: the text blocks of `a + b` are those of `a` followed by those of `b` |
| `Reply.ExtractReply` | agent_app.py:158-188 | the reply or error the page shows for a listing; its meaning is stated by `Reply.ExtractReplyAnswers` and `Reply.ExtractReplyFailures` |
| `Reply.NoAssistantMessages` | agent_app.py:161-166 | no assistant message is collected exactly when no listed message has role "assistant" |
| `Reply.LatestAssistant` | agent_app.py:166-167 | when an assistant message exists, a last assistant position exists, and the latest message chosen is the one at that position, in list order |
| `Reply.FirstTextBlock` | agent_app.py:171-173 | there is a text block exactly when some block has type "text", and the first text block is the block at the first such position |
| `Reply.ExtractReplyAnswers` | agent_app.py:158-173 | the reply is `text` exactly when the listing has `data`, its last assistant message has a first text block, and `text` is that block's text (both directions) |
| `Reply.ExtractReplyFailures` | agent_app.py:161-188 | "no response" exactly when `data` is missing or no message is an assistant's; "no content" exactly when the last assistant message has no blocks; "no text content" exactly when it has blocks but none of type "text" |
| `Reply.SelectReply` | agent_app.py:158-173 | the loop collecting assistant messages, followed by the choice of the latest message and its first text block, yields exactly `ExtractReply` |
| `Reply.LaterAssistantWins` | agent_app.py:166-167 | with two assistant messages listed after the user's, the later one supplies the reply |
| `Reply.FirstTextBlockWins` | agent_app.py:171-173 | content blocks [non-text, text a, text b] give the reply a |
| `Conversation.Query` | agent_app.py:104-191 | the new session values, the calls made and the status of `process_query`; its meaning is stated by `Conversation.QueryGuards`, `QueryTranscript`, `QueryAnswers`, `QueryCallsAndQuestion` and `QueryKeepsConsistent` |
| `Conversation.Consistent` | agent_app.py:46-51 | the session invariant: no transcript without a thread, no empty user turn, every assistant turn directly after a user turn; it holds initially and is kept by every handler (`Conversation.QueryKeepsConsistent`, the class's methods) |
| `Conversation.QueryGuards` | agent_app.py:105-111 | an empty question or a missing thread ends the query with its warning, before any call, and changes no session value |
| `Conversation.QueryTranscript` | agent_app.py:113-114 | past the guards, the user turn carrying the question is appended first; the transcript grows by two (user, then assistant with the reply) on an answer and by one on every failure; earlier turns and the thread id are unchanged |
| `Conversation.QueryAnswers` | agent_app.py:120-191 | past the guards, the query answers with `text` exactly when every call succeeds and the listing yields `text`; a listing without a reply ends with that reply error; a raising call ends with that call's error |
| `Conversation.QueryCallsAndQuestion` | agent_app.py:120-151 | past the guards, calls are made in order up to the one that raises; the message sent carries the pending question; the question is cleared exactly when posting it succeeded, and is otherwise left as it was |
| `Conversation.QueryKeepsConsistent` | agent_app.py:104-191 | a query preserves the session invariant: no transcript without a thread, no empty user turn, and every assistant turn directly follows a user turn |
| `Conversation.NoThreadScenario` | agent_app.py:109-111 | with no thread, "What is CCUS?" is refused, with no turn recorded and no call made |
| `Conversation.AnswerScenario` | agent_app.py:114-176 | with a thread and an assistant reply "CCUS stands for...", the transcript becomes the question followed by that reply |
| `Conversation.Session.constructor` | agent_app.py:46-51 | a new session has no turns, no thread and an empty question, and is consistent |
| `Conversation.Session.StartNewThread` | agent_app.py:68-83 | on success the thread id becomes the new id and the transcript is emptied; on an error both stay as they were; the question never changes; consistency is kept |
| `Conversation.Session.ProcessQuery` | agent_app.py:104-191 | the fields, the calls made and the status after the handler are exactly those `Query` gives for the old fields; consistency is kept |
| `Conversation.Session.Submit` | agent_app.py:198-200 | the form's text becomes the question, and the query then runs as `Query` gives; consistency is kept |

## Left out

- Page configuration, CSS, the sidebar text, spinners, the "Thinking..." placeholder and the HTML transcript rendering are presentation only. So are the wording of warnings, errors and success messages. The model keeps only which outcome each one reports (`Conversation.QueryStatus`).
- Credential and client construction, and the service calls (`create_thread`, `get_agent`, `get_thread`, `create_message`, `create_and_process_run`, `list_messages`), are foreign network calls. Each is an outcome supplied by the caller. The thread and agent the service returns are assumed to carry the ids they were fetched by. The run's blocking wait is the client's own and is not modelled.
- Thread creation: building the client and creating the thread form one outcome, because either raising ends the handler in the same way.
- `st.rerun()` is left out. In Streamlit it raises a control exception that `except Exception` does not catch, so it ends the script run without changing the session. The debug `print`s are left out too.
- An exception raised while reading a listed message (a missing `role`, or a text block without `text.value`) is not modelled. Listed messages always carry a role, and blocks always carry a text.
- A message whose `content` is `None` rather than a list is modelled as empty content. Both take the same "no content" branch.
- The "if not already present" initialisation of session values across Streamlit reruns is modelled only as the constructor of a fresh session. Reruns keep the object as it is.
