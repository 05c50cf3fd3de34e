# Meme template viewer, modelled in Dafny

The system is a single React component, `App` in `src/App.jsx`. It loads the list of meme
templates from the Imgflip listing endpoint once, when it mounts. The user types a query in a
search box, and the component shows one of four views: a loading notice, an error message, a
"no match" notice, or a grid of cards, one for each template that matches.

The model covers the three pieces of logic in that component:

- **the search filter** (`filteredMemes`). The query is trimmed and lower-cased. A blank
  query keeps the whole list. Any other query keeps, in order, the templates whose
  lower-cased name contains it. Modules `Text` and `Search`.
- **the load** (`fetchMemes`). `Loader.Settled` is a table from the way the request ended
  (`Loader.FetchOutcome`) to the new values of the `memes`, `loading` and `error` cells.
  `App.MemeViewer` is a class holding the component's four state cells. Its `Load` method
  performs the same updates one at a time, and its contract ties the result to `Settled`.
- **view selection**: the chain of conditionals in the page section (`Views.SelectView`).

Files: `wrappers.dfy` (Option), `text.dfy`, `search.dfy`, `loader.dfy`, `views.dfy`, `app.dfy`.

The model follows these details of the code:

- A successful response whose `data.memes` is missing or is not an array sets the list to `[]`
  and records no error (src/App.jsx:26). The user then sees the "no match" view, not an error.
- Every failed load keeps the list that was there before. The code never clears `memes` in
  the `catch` path (src/App.jsx:27-28).
- The view tests `error` by JavaScript truthiness (src/App.jsx:79). If an `Error` with an empty
  message is thrown, `error` becomes `""`, the error view is skipped, and the list view is
  shown. `Views.Shows` models this test, and `App.ViewAfterLoad` states the consequence.
- `trim` removes exactly the ECMAScript WhiteSpace and LineTerminator code points
  (`Text.IsSpace`).

## Model

| member | source | states |
|---|---|---|
| `Text.Trim` | src/App.jsx:38 | the trimmed query is the original with white space removed from both ends, and what remains begins and ends with a non-space |
| `Text.TrimStartSplits` | src/App.jsx:38 | removing leading white space drops only white space and keeps the rest of the string unchanged |
| `Text.TrimAllSpace` | src/App.jsx:38-39 | a query trims to the empty string exactly when it is all white space |
| `Text.TrimIdempotent` | src/App.jsx:38 | trimming an already trimmed query changes nothing |
| `Text.TrimPadded` | src/App.jsx:38 | white space added before and after a query does not change its trimmed form |
| `Text.Lower` | src/App.jsx:38 | lower-casing keeps the length, maps each character by the ASCII case mapping, and leaves no upper-case letter |
| `Text.LowerIdempotent` | src/App.jsx:43 | lower-casing an already lower-cased string changes nothing |
| `Text.LowerTrim` | src/App.jsx:38 | lower-casing then trimming gives the same result as trimming then lower-casing |
| `Text.Includes` | src/App.jsx:43 | `String.prototype.includes`, trying each start position from the left; it has no contract of its own, and `Text.IncludesIffOccurs` states what it computes |
| `Text.IncludesIffOccurs` | src/App.jsx:43 | `includes` holds exactly when the term occurs at some position of the string |
| `Text.IncludesEmpty` | src/App.jsx:43 | every string includes the empty term |
| `Search.Term` | src/App.jsx:38 | the normalised query: trimmed, then lower-cased; no contract of its own, its properties are `Text.Trim`, `Text.Lower`, `Text.LowerTrim` and `Search.FilterCaseInsensitive` |
| `Search.Matches` | src/App.jsx:43 | the `filter` callback: the lower-cased name includes the term; `Search.FilterMembership` restates it as a substring occurrence |
| `Search.Filter` | src/App.jsx:37-44 | `filteredMemes`: the whole list for a blank term, otherwise the matching memes; no contract of its own, it is described by `Search.FilterMembership`, `Search.FilterCount`, `Search.FilterSubsequence`, `Search.FilterBlankQuery` and `Search.FilterIdempotent` |
| `Search.KeepMatching` | src/App.jsx:43 | the filtered list is no longer than the input, and every meme in it matches the term |
| `Search.FilterIsKeepMatching` | src/App.jsx:37-44 | the early return for a blank query agrees with filtering by the empty term, so the filter always equals plain filtering by the normalised term |
| `Search.FilterBlankQuery` | src/App.jsx:38-41 | an empty or all-white-space query returns the list unchanged, in the same order |
| `Search.FilterSubsequence` | src/App.jsx:43 | the result is a subsequence of the loaded list in the original relative order, so it is never longer |
| `Search.FilterCount` | src/App.jsx:43 | a meme appears in the result as many times as in the input when its lower-cased name contains the term, and otherwise not at all |
| `Search.FilterMatches` | src/App.jsx:43 | a meme is in the result exactly when it is loaded and matches the normalised term |
| `Search.FilterMembership` | src/App.jsx:38-43 | a meme is in the result exactly when it is loaded and the normalised query occurs as a substring of its lower-cased name |
| `Search.FilterCaseInsensitive` | src/App.jsx:38 | two queries that are equal after lower-casing select the same memes |
| `Search.FilterPaddingInsensitive` | src/App.jsx:38 | adding leading or trailing white space to a query does not change the result |
| `Search.FilterTrimInsensitive` | src/App.jsx:38 | a query and its trimmed form select the same memes |
| `Search.FilterIdempotent` | src/App.jsx:43 | filtering the filtered list again with the same query returns the same list |
| `Search.SubsequenceLength` | src/App.jsx:43 | a subsequence is never longer than the list it comes from |
| `Loader.CaughtMessage` | src/App.jsx:28 | the `catch` block records an `Error`'s own message, and "Something went wrong." for any other thrown value |
| `Loader.Settled` | src/App.jsx:11-32 | after a load, `loading` is false on every path; `error` is null exactly when the body reported success; a failed load leaves `memes` as it was |
| `Loader.SettledIgnoresEarlierError` | src/App.jsx:13-14 | the state after a load is the same whatever `loading` and `error` held before, because `error` is cleared first |
| `Loader.SettledSuccess` | src/App.jsx:26 | a successful body replaces the list with its array and clears the error; a body whose memes field is not an array gives `[]` and no error |
| `Loader.SettledFailures` | src/App.jsx:17-28 | a not-ok response records "Unable to load meme templates right now."; a falsy `success` records "Imgflip returned an unexpected response."; a thrown `Error` records its message; any other thrown value records "Something went wrong."; each keeps the old list |
| `Views.Cards` | src/App.jsx:87-102 | one card per filtered meme, in order, showing its `url` and captioned with its `name` |
| `Views.Shows` | src/App.jsx:79 | the truthiness test `error ?`: a recorded message that is not empty; no contract of its own, `Views.SelectView` and `App.ViewAfterLoad` state its effect |
| `Views.SelectView` | src/App.jsx:75-85 | precedence: loading gives Loading; else a truthy error gives the error view with that message; else an empty filtered list gives Empty; otherwise Populated with the cards of the filtered list |
| `Views.ListOnlyTogglesResults` | src/App.jsx:75-85 | a different filtered list, with the same cells, leaves the view unchanged or moves it between Empty and Populated |
| `App.MemeViewer.constructor` | src/App.jsx:5-8 | the component starts with no memes, an empty query, `loading` true and no error, so the first view is Loading |
| `App.MemeViewer.Load` | src/App.jsx:11-32 | the step-by-step updates of `fetchMemes` (set `loading`, clear `error`, handle the outcome, `catch`, `finally`) end in `Settled` of the earlier cells; the query is untouched |
| `App.MemeViewer.SetSearchTerm` | src/App.jsx:67-68 | a keystroke changes only the query, the view never enters or leaves Loading or the error view, and it stays a result view (Empty or Populated) if it was one |
| `App.ViewAfterLoad` | src/App.jsx:17-85 | after any load the view is not Loading; each failure shows its message (an empty `Error` message falls through to the results); a success shows Empty or Populated, and Empty for a blank query exactly when the list is empty |
| `App.TwoTemplateLoad` | src/App.jsx:26 | loading the body with Drake and Doge gives both records, in order, with no error and `loading` false |
| `App.TwoTemplateQueryDra` | src/App.jsx:43 | the query "dra" keeps exactly Drake |
| `App.TwoTemplateQueryDoge` | src/App.jsx:38 | "DOGE" and "doge" both keep exactly Doge |
| `App.TwoTemplateQueryZzz` | src/App.jsx:81-84 | the query "zzz" gives the Empty view |

## Left out

- The `fetch` call, the HTTP status and `response.json()` (src/App.jsx:16-21) are network
  I/O. They become the parameter `Loader.FetchOutcome`: a not-ok response, a decoded body
  (whether `payload?.success` is truthy, and `data.memes` when it is an array), or a thrown
  value. The model does not decide which JSON values count as truthy.
- The list elements are taken to be well-formed `{id, name, url}` records. If a `name` is not
  a string, `toLowerCase` would throw during rendering. The model does not cover this.
- React's `useState`, `useEffect` and `useMemo` are framework machinery, and the model leaves
  them out, along with the async scheduling of the handler and the write after unmount.
  `Load` runs whole, as one step. The renders in between that show `loading` as true are not
  modelled.
- JSX markup, Tailwind classes, image lazy loading and React keys are presentation only.
- Text.Lower: only the ASCII letters A-Z are mapped. The full Unicode case mapping of
  `toLowerCase` (including mappings that change the length) is not modelled.
