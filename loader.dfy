/**
 * What one run of `fetchMemes` does to the `memes`, `loading` and `error`
 * cells, as a function of how the request ended.
 */
module Loader {
  import opened Wrappers
  import opened Search

  const NotOkMessage := "Unable to load meme templates right now."
  const UnexpectedResponseMessage := "Imgflip returned an unexpected response."
  const FallbackMessage := "Something went wrong."

  /** A value that reached the `catch` block. */
  datatype Thrown =
    | ErrorObject(message: string)  // an `Error` instance, carrying its `message`
    | NonError                      // any other thrown value

  /** How the request and the decoding of its body ended. */
  datatype FetchOutcome =
    | NotOk                         // a response whose `ok` is false
    | Received(successTruthy: bool, memesField: Option<seq<Meme>>)
        // a decoded body: whether `payload?.success` is truthy, and
        // `payload.data?.memes` when it is an array (None otherwise)
    | Threw(thrown: Thrown)          // `fetch` or `response.json()` threw

  /** The three state cells the loader writes. */
  datatype LoadState = LoadState(memes: seq<Meme>, loading: bool, error: Option<string>)

  /** The reaction of the `catch` block: an `Error`'s message, or the fallback text. */
  function CaughtMessage(t: Thrown): (msg: string)
    ensures t.NonError? ==> msg == FallbackMessage
    ensures t.ErrorObject? ==> msg == t.message
  {
    if t.ErrorObject? then t.message else FallbackMessage
  }

  /** The load ended in `setMemes` rather than in the `catch` block. */
  predicate Succeeded(outcome: FetchOutcome) {
    outcome.Received? && outcome.successTruthy
  }

  /** The state once a load has finished, as a table over the outcome. */
  function Settled(before: LoadState, outcome: FetchOutcome): (after: LoadState)
    ensures !after.loading
    ensures after.error == None <==> Succeeded(outcome)
    ensures !Succeeded(outcome) ==> after.memes == before.memes
  {
    match outcome
    case NotOk => LoadState(before.memes, false, Some(NotOkMessage))
    case Received(success, field) =>
      if success then LoadState(field.GetOr([]), false, None)
      else LoadState(before.memes, false, Some(UnexpectedResponseMessage))
    case Threw(t) => LoadState(before.memes, false, Some(CaughtMessage(t)))
  }

  /** The error is cleared before the request, so no earlier error survives a load. */
  lemma SettledIgnoresEarlierError(s1: LoadState, s2: LoadState, outcome: FetchOutcome)
    requires s1.memes == s2.memes
    ensures Settled(s1, outcome) == Settled(s2, outcome)
  {
  }

  /** A successful load replaces the list wholesale, with `[]` for a body that has no array. */
  lemma SettledSuccess(before: LoadState, memes: seq<Meme>)
    ensures Settled(before, Received(true, Some(memes))) == LoadState(memes, false, None)
    ensures Settled(before, Received(true, None)) == LoadState([], false, None)
  {
  }

  /** Each failure records its own message and keeps the earlier list. */
  lemma SettledFailures(before: LoadState, field: Option<seq<Meme>>, message: string)
    ensures Settled(before, NotOk) == LoadState(before.memes, false, Some(NotOkMessage))
    ensures Settled(before, Received(false, field))
         == LoadState(before.memes, false, Some(UnexpectedResponseMessage))
    ensures Settled(before, Threw(NonError)) == LoadState(before.memes, false, Some(FallbackMessage))
    ensures Settled(before, Threw(ErrorObject(message))) == LoadState(before.memes, false, Some(message))
  {
  }
}
