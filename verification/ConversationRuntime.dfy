/**
 Per-conversation runtime state: whether a loop is running, the messages buffered meanwhile,
 and the current cancellation token.
 */
module ConversationRuntimes {

  /** What the dispatch protocol can observe of a runtime. */
  datatype Runtime = Runtime(active: bool, pending: seq<string>) {
    function WithActive(v: bool): Runtime {
      this.(active := v)
    }

    function Pushed(text: string): Runtime {
      this.(pending := pending + [text])
    }

    function Emptied(): Runtime {
      this.(pending := [])
    }
  }

  const IDLE := Runtime(false, [])

  class CancellationToken {
    var cancelled: bool

    constructor ()
      ensures !cancelled
    {
      cancelled := false;
    }
  }

  class ConversationRuntime {
    var cancelToken: CancellationToken
    var pending: seq<string>
    var active: bool

    function View(): Runtime
      reads this
    {
      Runtime(active, pending)
    }

    constructor ()
      ensures View() == IDLE && fresh(cancelToken) && !cancelToken.cancelled
    {
      cancelToken := new CancellationToken();
      pending := [];
      active := false;
    }

    method IsActive() returns (v: bool)
      ensures v == View().active
    {
      v := active;
    }

    method SetActive(v: bool)
      modifies this`active
      ensures active == v && View() == old(View()).WithActive(v)
    {
      active := v;
    }

    method PushPending(text: string)
      modifies this`pending
      ensures pending == old(pending) + [text] && View() == old(View()).Pushed(text)
    {
      pending := pending + [text];
    }

    method Cancel()
      modifies cancelToken
      ensures cancelToken.cancelled
    {
      cancelToken.cancelled := true;
    }

    /** Tokens handed out earlier keep their state: a stale cancel does not reach the new loop. */
    method ReplaceToken()
      modifies this`cancelToken
      ensures fresh(cancelToken) && !cancelToken.cancelled
    {
      cancelToken := new CancellationToken();
    }

    method ClearPending()
      modifies this`pending
      ensures pending == [] && View() == old(View()).Emptied()
    {
      pending := [];
    }

    /** Three operations, each under its own lock. */
    method Reset()
      modifies this
      ensures View() == old(View()).Emptied().WithActive(false) == IDLE
      ensures fresh(cancelToken) && !cancelToken.cancelled
    {
      ReplaceToken();
      ClearPending();
      SetActive(false);
    }

    method Drain() returns (texts: seq<string>)
      modifies this`pending
      ensures texts == old(pending) && pending == []
      ensures View() == old(View()).Emptied()
    {
      texts := pending;
      pending := [];
    }
  }

  /** The buffer is a queue: a drain returns what was buffered, then what was pushed, in the order of the pushes. */
  method PushAndDrain(runtime: ConversationRuntime, texts: seq<string>) returns (drained: seq<string>)
    modifies runtime`pending
    ensures drained == old(runtime.pending) + texts && runtime.pending == []
  {
    for i := 0 to |texts|
      invariant runtime.pending == old(runtime.pending) + texts[..i]
    {
      assert texts[..i + 1] == texts[..i] + [texts[i]];
      runtime.PushPending(texts[i]);
    }
    assert texts[..|texts|] == texts;
    drained := runtime.Drain();
  }
}
