/**
 * The `useAppLoading` hook: a loading flag and a message, with three
 * operations. An omitted message argument is `None`; the hook replaces the
 * message only for a truthy argument, that is a present, non-empty string.
 */
module AppLoading {
  import opened Optional

  datatype LoadingState = LoadingState(isLoading: bool, loadingMessage: string)

  const Initial := LoadingState(false, "")

  /** `if (message)`: the argument is present and non-empty. */
  predicate Truthy(message: Option<string>)
  {
    message.Some? && message.value != ""
  }

  /** The message after an operation that may replace it. */
  function MessageAfter(current: string, message: Option<string>): (r: string)
    ensures Truthy(message) ==> r == message.value
    ensures !Truthy(message) ==> r == current
  {
    if Truthy(message) then message.value else current
  }

  /** `setLoading(loading, message)`. */
  function SetLoading(s: LoadingState, loading: bool, message: Option<string>): (r: LoadingState)
    ensures r.isLoading == loading
    ensures r.loadingMessage == MessageAfter(s.loadingMessage, message)
  {
    LoadingState(loading, MessageAfter(s.loadingMessage, message))
  }

  /** `startLoading(message)`. */
  function StartLoading(s: LoadingState, message: Option<string>): (r: LoadingState)
    ensures r.isLoading
    ensures r.loadingMessage == MessageAfter(s.loadingMessage, message)
  {
    LoadingState(true, MessageAfter(s.loadingMessage, message))
  }

  /** `stopLoading()`. */
  function StopLoading(s: LoadingState): (r: LoadingState)
    ensures r == Initial
  {
    LoadingState(false, "")
  }

  /** `setLoading(true, m)` does what `startLoading(m)` does. */
  lemma SetLoadingTrueIsStart(s: LoadingState, message: Option<string>)
    ensures SetLoading(s, true, message) == StartLoading(s, message)
  {
  }

  /**
   * `setLoading(false)` is not `stopLoading()`: after `startLoading("x")`
   * it ends loading but keeps the message "x".
   */
  lemma SetLoadingFalseKeepsMessage(s: LoadingState, message: string)
    requires message != ""
    ensures SetLoading(StartLoading(s, Some(message)), false, None) == LoadingState(false, message)
    ensures StopLoading(StartLoading(s, Some(message))) != SetLoading(StartLoading(s, Some(message)), false, None)
  {
  }

  /** An empty or omitted message never replaces the current one. */
  lemma FalsyMessageKept(s: LoadingState, loading: bool)
    ensures StartLoading(s, None).loadingMessage == s.loadingMessage
    ensures StartLoading(s, Some("")).loadingMessage == s.loadingMessage
    ensures SetLoading(s, loading, Some("")).loadingMessage == s.loadingMessage
  {
  }

  /** The hook's two pieces of state. */
  class AppLoadingHook {
    var isLoading: bool
    var loadingMessage: string

    function State(): LoadingState
      reads this
    {
      LoadingState(isLoading, loadingMessage)
    }

    constructor()
      ensures State() == Initial
    {
      isLoading := false;
      loadingMessage := "";
    }

    method Start(message: Option<string>)
      modifies this
      ensures State() == StartLoading(old(State()), message)
    {
      isLoading := true;
      if Truthy(message) {
        loadingMessage := message.value;
      }
    }

    method Stop()
      modifies this
      ensures State() == StopLoading(old(State()))
    {
      isLoading := false;
      loadingMessage := "";
    }

    method Set(loading: bool, message: Option<string>)
      modifies this
      ensures State() == SetLoading(old(State()), loading, message)
    {
      isLoading := loading;
      if Truthy(message) {
        loadingMessage := message.value;
      }
    }
  }
}
