/** The conversation history of the ERNIE-Bot client (`ErnieBotClient`): the
    process-wide map from conversation key to message queue, the continued
    conversation calls that add the user turn to it, and `historyMono`, which
    adds the assistant turn once the reply arrives. */
module ErnieHistory {
  import opened Types
  import opened JavaStrings
  import opened ErnieRequests

  /** The static `ERNIE_MESSAGES_HISTORY_MAP`: each key's queue is modelled by
      the sequence of its messages, oldest first. */
  class HistoryStore {
    var histories: map<string, seq<Message>>

    /** A fresh, empty map. */
    constructor ()
      ensures histories == map[]
    {
      histories := map[];
    }

    /** The conversation `key` names, as get-or-create sees it: a key never seen
        is an empty conversation. */
    function Conversation(key: string): seq<Message>
      reads this
    {
      if key in histories then histories[key] else []
    }

    /** `getMessageHistoryMap`: the mapping currently in use. */
    method GetMessageHistoryMap() returns (m: map<string, seq<Message>>)
      ensures m == histories
    {
      m := histories;
    }

    /** `initMessageHistoryMap`: swaps in a whole new mapping; every later lookup
        uses it, and a key it does not hold is unseen again. */
    method InitMessageHistoryMap(m: map<string, seq<Message>>)
      modifies this
      ensures histories == m
      ensures forall key :: key !in m ==> Conversation(key) == []
    {
      histories := m;
    }

    /** `computeIfAbsent(key, k -> new LinkedList<>())`: an unseen key gets an
        empty queue; a known key and every other key are left as they were. */
    method ComputeIfAbsent(key: string) returns (h: seq<Message>)
      modifies this
      ensures key in histories
      ensures histories == old(histories)[key := old(Conversation(key))]
      ensures h == old(Conversation(key))
    {
      if key !in histories {
        histories := histories[key := []];
      }
      h := histories[key];
    }

    /** `offerMessage`: one message at the tail of one existing queue. */
    method OfferMessage(key: string, message: Message)
      requires key in histories
      modifies this
      ensures histories == old(histories)[key := old(histories)[key] + [message]]
    {
      histories := histories[key := histories[key] + [message]];
    }

    /** Get-or-create the queue of `key` and add the user turn at its tail; the
        request then carries the whole conversation. */
    method AddUserTurn(key: string, content: JavaString, stream: bool) returns (d: Dispatch)
      modifies this
      ensures histories == old(histories)[key := old(Conversation(key)) + [UserMessage(content)]]
      ensures d == Dispatch(old(Conversation(key)) + [UserMessage(content)], stream)
    {
      var _ := ComputeIfAbsent(key);
      OfferMessage(key, UserMessage(content));
      d := Dispatch(histories[key], stream);
    }

    /** `chatCont(String, String)` (`stream` false) and
        `chatContOfStream(String, String)` (`stream` true): a blank content or
        key throws before the map is touched; otherwise exactly one user turn is
        added at the tail of that key's conversation, created empty if unseen,
        and no other key changes. */
    method ChatCont(content: JavaString, msgUid: JavaString, stream: bool) returns (r: Result<Dispatch, Error>)
      modifies this
      ensures r.Err? <==> IsBlank(content) || IsBlank(msgUid)
      ensures r.Err? ==> r.error == Business(ParamsError, None) && histories == old(histories)
      ensures r.Ok? ==>
        histories == old(histories)[msgUid.value := old(Conversation(msgUid.value)) + [UserMessage(content)]]
      ensures r.Ok? ==> r.value == Dispatch(histories[msgUid.value], stream)
    {
      if IsBlank(content) || IsBlank(msgUid) {
        return Err(Business(ParamsError, None));
      }
      var d := AddUserTurn(msgUid.value, content, stream);
      r := Ok(d);
    }

    /** `chatCont(ChatErnieRequest, String)` and
        `chatContOfStream(ChatErnieRequest, String)`: the key is checked first,
        then the request is validated, and only then is the history touched. */
    method ChatContWithRequest(req: ChatErnieRequest, msgUid: JavaString, stream: bool)
      returns (r: Result<Dispatch, Error>)
      modifies this
      ensures IsBlank(msgUid) ==> r == Err(Business(ParamsError, None))
      ensures !IsBlank(msgUid) && ValidChatErnieRequest(req).outcome.Fail? ==>
        r == Err(ValidChatErnieRequest(req).outcome.error)
      ensures r.Ok? <==> !IsBlank(msgUid) && ValidChatErnieRequest(req).outcome == Pass
      ensures r.Err? ==> histories == old(histories)
      ensures r.Ok? ==>
        histories == old(histories)[msgUid.value := old(Conversation(msgUid.value)) + [UserMessage(req.content)]]
      ensures r.Ok? ==> r.value == Dispatch(histories[msgUid.value], stream)
    {
      if IsBlank(msgUid) {
        return Err(Business(ParamsError, None));
      }
      var verdict := ValidChatErnieRequest(req);
      if verdict.outcome.Fail? {
        return Err(verdict.outcome.error);
      }
      var d := AddUserTurn(msgUid.value, req.content, stream);
      r := Ok(d);
    }

    /** `historyMono`, once the transport's reply `Mono` has ended: an emitted
        reply is returned unchanged, after exactly one assistant turn holding
        its result has been added at that conversation's tail; an empty
        completion or a transport error passes through unchanged and adds
        nothing. */
    method HistoryMono(key: string, reply: MonoOutcome) returns (r: MonoOutcome)
      requires key in histories
      modifies this
      ensures r == reply
      ensures reply.Emitted? ==>
        histories == old(histories)[key := old(histories)[key] + [AssistantMessage(reply.response.result)]]
      ensures !reply.Emitted? ==> histories == old(histories)
    {
      // `flatMap` runs its function only for an emitted value; the null test
      // inside it can never succeed, since Reactor never emits null.
      if reply.Emitted? {
        OfferMessage(key, AssistantMessage(reply.response.result));
      }
      r := reply;
    }
  }

  /** One whole single-reply continued turn, `chatCont(content, msgUid)` and the
      reply it waits for: a rejected call throws and changes nothing; otherwise
      the caller sees how the transport's reply ended, and the conversation
      gains the user turn, immediately followed by its assistant turn when a
      reply was emitted; an empty or failed reply leaves the user turn
      recorded with no assistant turn. */
  method ContinuedExchange(store: HistoryStore, content: JavaString, msgUid: JavaString, reply: MonoOutcome)
    returns (r: Result<MonoOutcome, Error>)
    modifies store
    ensures IsBlank(content) || IsBlank(msgUid) ==>
      r == Err(Business(ParamsError, None)) && store.histories == old(store.histories)
    ensures !IsBlank(content) && !IsBlank(msgUid) ==> r == Ok(reply)
    ensures !IsBlank(content) && !IsBlank(msgUid) && reply.Emitted? ==>
      store.histories == old(store.histories)[msgUid.value :=
        old(store.Conversation(msgUid.value)) + [UserMessage(content), AssistantMessage(reply.response.result)]]
    ensures !IsBlank(content) && !IsBlank(msgUid) && !reply.Emitted? ==>
      store.histories == old(store.histories)[msgUid.value :=
        old(store.Conversation(msgUid.value)) + [UserMessage(content)]]
  {
    var sent := store.ChatCont(content, msgUid, false);
    if sent.Err? {
      return Err(sent.error);
    }
    ghost var before := old(store.Conversation(msgUid.value));
    assert store.histories[msgUid.value] == before + [UserMessage(content)];
    var outcome := store.HistoryMono(msgUid.value, reply);
    assert reply.Emitted? ==>
      before + [UserMessage(content)] + [AssistantMessage(reply.response.result)]
      == before + [UserMessage(content), AssistantMessage(reply.response.result)];
    r := Ok(outcome);
  }
}
