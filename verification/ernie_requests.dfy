/** The request checks of the ERNIE-Bot client (`ErnieBotClient`): the ordered
    guard chain that `validChatErnieRequest` applies to a full request, and the
    blank-content guard of the single-turn calls. */
module ErnieRequests {
  import opened Types
  import opened JavaStrings

  /** `Constant.MAX_CONTENT_LENGTH`: the longest accepted content, in UTF-16 units. */
  const MaxContentLength: nat := 2000

  const ContentEmptyText := "content cannot be empty"
  const ContentTooLongText := "content's length cannot be more than 2000"
  const TemperatureRangeText := "temperature should be in (0, 1]"
  const TopPRangeText := "topP should be in [0, 1]"
  const PenaltyScoreRangeText := "penaltyScore should be in [1, 2]"

  /** A `ChatErnieRequest` as far as validation looks at it: the content and the
      three boxed sampling parameters, each of which may be null. */
  datatype ChatErnieRequest = ChatErnieRequest(
    content: JavaString,
    temperature: Option<real>,
    topP: Option<real>,
    penaltyScore: Option<real>)

  /** What validation does: whether it logged the "both temperature and topP"
      warning, and whether it returned normally or threw. */
  datatype Verdict = Verdict(warned: bool, outcome: Outcome<Error>)

  /** What a continued or single-turn call hands to the transport: the messages
      of the request and whether the reply is to be streamed. */
  datatype Dispatch = Dispatch(messages: seq<Message>, stream: bool)

  /** The `PARAMS_ERROR` exception with one of the validator's messages. */
  function Rejection(text: string): Error
  {
    Business(ParamsError, Some(text))
  }

  predicate ContentAcceptable(req: ChatErnieRequest)
  {
    !IsBlank(req.content) && JavaLength(req.content.value) <= MaxContentLength
  }

  /** An absent temperature is not checked; a present one must lie in (0, 1]. */
  predicate TemperatureAcceptable(req: ChatErnieRequest)
  {
    req.temperature.None? || 0.0 < req.temperature.value <= 1.0
  }

  /** An absent topP is not checked; a present one must lie in [0, 1]. */
  predicate TopPAcceptable(req: ChatErnieRequest)
  {
    req.topP.None? || 0.0 <= req.topP.value <= 1.0
  }

  /** The penalty score is only consulted when a temperature is present; then it
      must be present and lie in [1, 2]. */
  predicate PenaltyScoreAcceptable(req: ChatErnieRequest)
  {
    req.temperature.None? || (req.penaltyScore.Some? && 1.0 <= req.penaltyScore.value <= 2.0)
  }

  /** `validChatErnieRequest`: the first failing guard decides the exception;
      the warning about both sampling parameters never decides anything.

      The body follows the code's guard chain in order, and the first
      postcondition compares it with the four `...Acceptable` predicates, which
      state the same guards independently, one parameter at a time; the two are
      written separately on purpose, so that the chain is checked against them. */
  function ValidChatErnieRequest(req: ChatErnieRequest): (v: Verdict)
    ensures v.outcome == Pass <==>
      ContentAcceptable(req) && TemperatureAcceptable(req) && TopPAcceptable(req) && PenaltyScoreAcceptable(req)
    ensures v.warned <==> ContentAcceptable(req) && req.temperature.Some? && req.topP.Some?
    ensures IsBlank(req.content) ==> v.outcome == Fail(Rejection(ContentEmptyText))
    ensures !IsBlank(req.content) && JavaLength(req.content.value) > MaxContentLength ==>
      v.outcome == Fail(Rejection(ContentTooLongText))
    ensures ContentAcceptable(req) && !TemperatureAcceptable(req) ==>
      v.outcome == Fail(Rejection(TemperatureRangeText))
    ensures ContentAcceptable(req) && TemperatureAcceptable(req) && !TopPAcceptable(req) ==>
      v.outcome == Fail(Rejection(TopPRangeText))
    ensures (ContentAcceptable(req) && TemperatureAcceptable(req) && TopPAcceptable(req)
             && req.temperature.Some? && req.penaltyScore.None?) ==>
      v.outcome == Fail(NullPointer)
    ensures (ContentAcceptable(req) && TemperatureAcceptable(req) && TopPAcceptable(req)
             && req.temperature.Some? && req.penaltyScore.Some? && !(1.0 <= req.penaltyScore.value <= 2.0)) ==>
      v.outcome == Fail(Rejection(PenaltyScoreRangeText))
  {
    if IsBlank(req.content) then Verdict(false, Fail(Rejection(ContentEmptyText)))
    else if JavaLength(req.content.value) > MaxContentLength then Verdict(false, Fail(Rejection(ContentTooLongText)))
    else
      var warned := req.temperature.Some? && req.topP.Some?;
      var outcome :=
        if req.temperature.Some? && (req.temperature.value <= 0.0 || req.temperature.value > 1.0) then
          Fail(Rejection(TemperatureRangeText))
        else if req.topP.Some? && (req.topP.value < 0.0 || req.topP.value > 1.0) then
          Fail(Rejection(TopPRangeText))
        else if req.temperature.Some? && req.penaltyScore.None? then
          // comparing the null `Float` with 1.0 unboxes it
          Fail(NullPointer)
        else if req.temperature.Some? && (req.penaltyScore.value < 1.0 || req.penaltyScore.value > 2.0) then
          Fail(Rejection(PenaltyScoreRangeText))
        else
          Pass;
      Verdict(warned, outcome)
  }

  /** Content of exactly 2000 UTF-16 units passes the length guard; 2001 does not. */
  lemma ContentLengthBoundary(req: ChatErnieRequest)
    requires !IsBlank(req.content)
    requires TemperatureAcceptable(req) && TopPAcceptable(req) && PenaltyScoreAcceptable(req)
    ensures JavaLength(req.content.value) == MaxContentLength ==> ValidChatErnieRequest(req).outcome == Pass
    ensures JavaLength(req.content.value) == MaxContentLength + 1 ==>
      ValidChatErnieRequest(req).outcome == Fail(Rejection(ContentTooLongText))
  {
  }

  /** A temperature of 0 is rejected, one of 1.0 or 0.5 (with a penalty score of
      1.5 and no topP) is accepted. */
  lemma TemperatureBoundary(content: string, t: real)
    requires ContentAcceptable(ChatErnieRequest(Some(content), None, None, None))
    ensures t == 0.0 ==>
      ValidChatErnieRequest(ChatErnieRequest(Some(content), Some(t), None, Some(1.5))).outcome
        == Fail(Rejection(TemperatureRangeText))
    ensures t == 1.0 || t == 0.5 ==>
      ValidChatErnieRequest(ChatErnieRequest(Some(content), Some(t), None, Some(1.5))).outcome == Pass
  {
  }

  /** Without a temperature the penalty score is never looked at: an absent or
      out-of-range penalty score passes. */
  lemma PenaltyScoreUncheckedWithoutTemperature(req: ChatErnieRequest)
    requires ContentAcceptable(req) && TopPAcceptable(req)
    requires req.temperature.None?
    ensures ValidChatErnieRequest(req).outcome == Pass
  {
  }

  /** With a temperature but no penalty score, validation fails by unboxing null,
      not with a `PARAMS_ERROR`. */
  lemma MissingPenaltyScoreUnboxes(req: ChatErnieRequest)
    requires ContentAcceptable(req) && TemperatureAcceptable(req) && TopPAcceptable(req)
    requires req.temperature.Some? && req.penaltyScore.None?
    ensures ValidChatErnieRequest(req).outcome == Fail(NullPointer)
  {
  }

  /** Giving both temperature and topP only warns: when every range check holds
      the request passes, with the warning logged. */
  lemma BothSamplingParametersOnlyWarn(req: ChatErnieRequest)
    requires ContentAcceptable(req) && TemperatureAcceptable(req) && TopPAcceptable(req) && PenaltyScoreAcceptable(req)
    requires req.temperature.Some? && req.topP.Some?
    ensures ValidChatErnieRequest(req) == Verdict(true, Pass)
  {
  }

  /** `chatSingle(String)` and `chatSingleOfStream(String)`: blank content is a
      `PARAMS_ERROR`; otherwise the request carries the one user turn and no
      history. */
  function ChatSingle(content: JavaString, stream: bool): (r: Result<Dispatch, Error>)
    ensures r.Err? <==> IsBlank(content)
    ensures r.Err? ==> r.error == Business(ParamsError, None)
    ensures r.Ok? ==> r.value.messages == [UserMessage(content)] && r.value.stream == stream
  {
    if IsBlank(content) then Err(Business(ParamsError, None))
    else Ok(Dispatch([UserMessage(content)], stream))
  }
}
