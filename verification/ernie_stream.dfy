/** The streaming subscriber of the ERNIE-Bot client (`ErnieSubscriber`): it
    pulls partial responses one at a time, forwards each to the downstream
    emitter, accumulates their non-empty result fragments, and on completion
    commits the whole reply to the conversation history as one assistant turn.

    Its callers follow the Reactive Streams rules for subscribers (version 1.0
    for the JVM), which the preconditions state: `onSubscribe` comes first (rule
    1.9), signals are serial (rule 1.3, so each method is one step), nothing
    follows `onError` or `onComplete` (rule 1.7), and `onNext` never outruns the
    requested demand (rule 1.1). */
module ErnieStream {
  import opened Types
  import opened JavaStrings

  /** The text one partial response adds to the reply: its result, unless that
      is null or empty (`StringUtils.isNotEmpty`). */
  function Fragment(r: Response): (f: string)
    ensures f == "" <==> !IsNotEmpty(r.result)
    ensures f != "" ==> r.result == Some(f)
  {
    if IsNotEmpty(r.result) then r.result.value else ""
  }

  /** The partial responses whose fragment is non-empty, in order. */
  function WithText(rs: seq<Response>): (ts: seq<Response>)
    ensures |ts| <= |rs|
    ensures forall i :: 0 <= i < |ts| ==> IsNotEmpty(ts[i].result)
  {
    if rs == [] then []
    else WithText(rs[..|rs| - 1]) + (if IsNotEmpty(rs[|rs| - 1].result) then [rs[|rs| - 1]] else [])
  }

  /** The reply assembled from the partial responses received so far, in
      arrival order; it is empty exactly when no response carried text. */
  function Aggregate(rs: seq<Response>): (a: string)
    ensures a == "" <==> WithText(rs) == []
    ensures |a| >= |WithText(rs)|
  {
    if rs == [] then "" else Aggregate(rs[..|rs| - 1]) + Fragment(rs[|rs| - 1])
  }

  /** Assembling two runs of responses gives the two replies one after the other. */
  lemma {:induction false} AggregateAppend(a: seq<Response>, b: seq<Response>)
    ensures Aggregate(a + b) == Aggregate(a) + Aggregate(b)
    decreases |b|
  {
    if b == [] {
      assert a + b == a;
    } else {
      var b' := b[..|b| - 1];
      assert (a + b)[..|a + b| - 1] == a + b';
      assert (a + b)[|a + b| - 1] == b[|b| - 1];
      AggregateAppend(a, b');
    }
  }

  /** A response with a null or empty result adds nothing wherever it arrives. */
  lemma {:induction false} AggregateSkipsEmpty(a: seq<Response>, r: Response, b: seq<Response>)
    requires !IsNotEmpty(r.result)
    ensures Aggregate(a + [r] + b) == Aggregate(a + b)
  {
    var ar := a + [r];
    assert ar[..|ar| - 1] == a && ar[|ar| - 1] == r;
    assert Aggregate(ar) == Aggregate(a) + "" == Aggregate(a);
    AggregateAppend(ar, b);
    AggregateAppend(a, b);
  }

  /** The reply is exactly the concatenation of the non-empty fragments: the
      empty ones can be dropped without changing it. */
  lemma {:induction false} AggregateOfTextOnly(rs: seq<Response>)
    ensures Aggregate(rs) == Aggregate(WithText(rs))
    decreases |rs|
  {
    if rs != [] {
      var init, last := rs[..|rs| - 1], rs[|rs| - 1];
      AggregateOfTextOnly(init);
      if IsNotEmpty(last.result) {
        AggregateAppend(WithText(init), [last]);
        assert Aggregate([last]) == Aggregate([]) + Fragment(last);
      } else {
        assert Aggregate(rs) == Aggregate(init) + "" == Aggregate(init);
        assert WithText(rs) == WithText(init) + [] == WithText(init);
      }
    }
  }

  /** The committed reply is empty exactly when no partial response carried a
      non-empty result. */
  lemma {:induction false} EmptyReplyIffNoText(rs: seq<Response>)
    ensures Aggregate(rs) == "" <==> forall i :: 0 <= i < |rs| ==> !IsNotEmpty(rs[i].result)
    decreases |rs|
  {
    if rs != [] {
      var init := rs[..|rs| - 1];
      EmptyReplyIffNoText(init);
      assert forall i :: 0 <= i < |init| ==> init[i] == rs[i];
    }
  }

  /** Fragments "Hel", "lo" and "" assemble to "Hello". */
  lemma HelloReply()
    ensures Aggregate([Response(Some("Hel")), Response(Some("lo")), Response(Some(""))]) == "Hello"
  {
    var rs := [Response(Some("Hel")), Response(Some("lo")), Response(Some(""))];
    assert rs[..2][..1] == [Response(Some("Hel"))];
    assert [Response(Some("Hel"))][..0] == [];
    assert rs[..2] == [Response(Some("Hel")), Response(Some("lo"))];
  }

  /** Where one exchange stands: before `onSubscribe`, subscribed and receiving,
      or terminated by `onComplete` or by `onError`. */
  datatype Phase = Init | Subscribed | Completed | Failed

  class ErnieSubscriber {
    /** Which signals have arrived so far. */
    var state: Phase
    /** Elements requested from the subscription with `request(1)`. */
    var requested: nat
    /** `onNext` signals received. */
    var received: nat
    /** The `StringBuilder` holding the reply assembled so far. */
    var buffer: string
    /** Every response passed on with `emitter.next`, in order. */
    var forwarded: seq<Response>
    /** The conversation queue this exchange commits its reply to. */
    var history: seq<Message>
    /** Whether `subscription.cancel()` has been called. */
    var cancelled: bool
    /** The failure passed on with `emitter.error`, if any. */
    var failure: Option<Throwable>
    /** The conversation as it was when the exchange began. */
    ghost const base: seq<Message>

    /** The subscriber's invariant: the buffer is the reply assembled from what
        was forwarded; once subscribed exactly one element is outstanding; and
        the history is untouched unless the exchange completed, in which case it
        has gained exactly one assistant turn holding the whole reply. */
    ghost predicate Valid()
      reads this
    {
      received == |forwarded| &&
      buffer == Aggregate(forwarded) &&
      (state == Init ==> requested == 0 && received == 0 && !cancelled) &&
      (state != Init ==> requested == received + 1) &&
      (state == Completed ==> history == base + [AssistantMessage(Some(buffer))]) &&
      (state != Completed ==> history == base) &&
      (failure.Some? <==> state == Failed)
    }

    /** `new ErnieSubscriber(emitter, messagesHistory)`. */
    constructor (messagesHistory: seq<Message>)
      ensures Valid()
      ensures state == Init && requested == 0 && received == 0 && buffer == ""
      ensures forwarded == [] && history == messagesHistory && base == messagesHistory
      ensures !cancelled && failure == None
    {
      state, requested, received := Init, 0, 0;
      buffer, forwarded := "", [];
      history, base := messagesHistory, messagesHistory;
      cancelled, failure := false, None;
    }

    /** `onSubscribe`: keeps the subscription and requests exactly one element. */
    method OnSubscribe()
      requires Valid() && state == Init
      modifies this
      ensures Valid()
      ensures state == Subscribed && requested == 1
      ensures received == old(received) && buffer == old(buffer) && forwarded == old(forwarded)
      ensures history == old(history) && cancelled == old(cancelled) && failure == old(failure)
    {
      state := Subscribed;
      requested := requested + 1;
    }

    /** `onNext`: requests one more element, appends the response's fragment to
        the buffer when it is non-empty, and forwards the response unchanged. */
    method OnNext(response: Response)
      requires Valid() && state == Subscribed
      requires received < requested
      modifies this
      ensures Valid()
      ensures requested == old(requested) + 1 && received == old(received) + 1
      ensures requested == received + 1
      ensures buffer == old(buffer) + Fragment(response)
      ensures forwarded == old(forwarded) + [response]
      ensures state == old(state) && history == old(history)
      ensures cancelled == old(cancelled) && failure == old(failure)
    {
      var part := response.result;
      requested := requested + 1;
      if IsNotEmpty(part) {
        buffer := buffer + part.value;
      }
      forwarded := forwarded + [response];
      received := received + 1;
      assert forwarded[..|forwarded| - 1] == old(forwarded);
    }

    /** `onError`: passes the failure downstream; the partial reply is never
        committed, so the history stays as it was. */
    method OnError(t: Throwable)
      requires Valid() && state == Subscribed
      modifies this
      ensures Valid()
      ensures state == Failed && failure == Some(t)
      ensures history == old(history) && history == base
      ensures requested == old(requested) && received == old(received)
      ensures buffer == old(buffer) && forwarded == old(forwarded) && cancelled == old(cancelled)
    {
      failure := Some(t);
      state := Failed;
    }

    /** `onComplete`: commits the whole buffer, even an empty one, as one
        assistant turn at the tail of the history, then completes downstream. */
    method OnComplete()
      requires Valid() && state == Subscribed
      modifies this
      ensures Valid()
      ensures history == old(history) + [AssistantMessage(Some(old(buffer)))]
      ensures history == base + [AssistantMessage(Some(Aggregate(forwarded)))]
      ensures state == Completed
      ensures requested == old(requested) && received == old(received)
      ensures buffer == old(buffer) && forwarded == old(forwarded)
      ensures cancelled == old(cancelled) && failure == old(failure)
    {
      var allResult := buffer;
      history := history + [AssistantMessage(Some(allResult))];
      state := Completed;
    }

    /** `dispose`: cancels the upstream subscription and touches neither the
        history nor the buffer. Before `onSubscribe` there is no subscription
        yet, and the call fails with a `NullPointerException`. */
    method Dispose() returns (r: Outcome<Error>)
      requires Valid()
      modifies this
      ensures Valid()
      ensures old(state) == Init ==> r == Fail(NullPointer) && cancelled == old(cancelled)
      ensures old(state) != Init ==> r == Pass && cancelled
      ensures state == old(state) && requested == old(requested) && received == old(received)
      ensures buffer == old(buffer) && forwarded == old(forwarded)
      ensures history == old(history) && failure == old(failure)
    {
      if state == Init {
        return Fail(NullPointer);
      }
      cancelled := true;
      r := Pass;
    }
  }

  /** A stream delivering "Hel", "lo" and "" and then completing commits the one
      assistant turn "Hello" after the turns already in the conversation. */
  method HelloExchange(messagesHistory: seq<Message>) returns (s: ErnieSubscriber)
    ensures fresh(s) && s.Valid() && s.state == Completed
    ensures s.history == messagesHistory + [AssistantMessage(Some("Hello"))]
    ensures s.forwarded == [Response(Some("Hel")), Response(Some("lo")), Response(Some(""))]
  {
    s := new ErnieSubscriber(messagesHistory);
    s.OnSubscribe();
    s.OnNext(Response(Some("Hel")));
    s.OnNext(Response(Some("lo")));
    s.OnNext(Response(Some("")));
    HelloReply();
    s.OnComplete();
  }

  /** A stream that fails after "par" and "tial" commits nothing: the history is
      exactly what it was, and the failure reaches the downstream emitter. */
  method InterruptedExchange(messagesHistory: seq<Message>, t: Throwable) returns (s: ErnieSubscriber)
    ensures fresh(s) && s.Valid() && s.state == Failed
    ensures s.history == messagesHistory && s.failure == Some(t)
    ensures s.forwarded == [Response(Some("par")), Response(Some("tial"))]
  {
    s := new ErnieSubscriber(messagesHistory);
    s.OnSubscribe();
    s.OnNext(Response(Some("par")));
    s.OnNext(Response(Some("tial")));
    s.OnError(t);
  }
}
