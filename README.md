# Leaderboard page and form validators — a Dafny model

This project models two small pieces of the testnet website's front end:

- **The naive form validators** (`utils/forms.ts`), in module `Forms`.
  `validateEmail` accepts a string when its first `'@'` is past the start,
  its first `'.'` is past the start, and that first `'.'` is not the last
  character. `exists` accepts a string that still has a character after
  `trim`. `UNSET` is the empty string. `String.prototype.indexOf` is
  modelled as `IndexOf`, which returns the first position or -1.
  `String.prototype.trim` is modelled as `TrimStart`/`TrimEnd` over the
  ECMAScript whitespace and line-terminator characters. The quirks are kept
  as they are. Only the first dot is examined. It may stand before the `'@'`.
  Nothing relates the `'@'` to the `'.'`.
- **The leaderboard page's query controller** (`pages/leaderboard.tsx`), in
  module `Leaderboard`. `BuildRequest` assembles the `listUsers` request:
  `limit` is 25, `search` is the debounced text, `country_code` is sent unless
  the country is `"Global"`, and `event_type` is sent unless the view is
  `"Total Points"`. The class `LeaderboardPage` holds the page's two state
  slots, `userList` and `searching`. The effect body is split at its `await`:
  - `BeginQuery` runs the guard, raises `searching` and issues the request.
  - `CompleteQuery` takes the response, stores it unless it is an error, and
    lowers `searching`.
  - `RunQuery` runs the two back to back.

  `DisplayedUsers` gives the users the page lists. `PaginationButtonsFor`
  gives which pagination buttons are disabled.

The page keeps no last-request-wins ordering. Each response is stored when it
arrives, whatever request it answers. No response is discarded as stale.
`OutOfOrderResponses` shows an older response overwriting a newer one. The
first response to arrive also lowers `searching` while another request is
still outstanding.

## Model

| member | source | states |
|---|---|---|
| `Forms.IndexOf` | utils/forms.ts:4-5 | The result is -1 exactly when the character does not occur; otherwise it is a position holding the character with no earlier occurrence. |
| `Forms.TrimStart` | utils/forms.ts:7 | The result is a suffix of the input; everything removed is whitespace; the result is empty or starts with a non-whitespace character. |
| `Forms.TrimEnd` | utils/forms.ts:7 | The result is a prefix of the input; everything removed is whitespace; the result is empty or ends with a non-whitespace character. |
| `Forms.IsWhitespace` | utils/forms.ts:7 | The characters `trim` removes; none of them is `'@'`, `'.'`, an ASCII letter or a digit. |
| `Forms.Trim` | utils/forms.ts:7 | The result is a piece of the input with only whitespace before and after it; it is empty exactly when the input is all whitespace, and otherwise neither starts nor ends with whitespace. |
| `Forms.ValidateEmail` | utils/forms.ts:3-6 | An accepted string has at least three characters and contains both an `'@'` and a `'.'`. |
| `Forms.Exists` | utils/forms.ts:7 | `exists` holds exactly when the string is not all whitespace. |
| `Forms.ValidateEmailIff` | utils/forms.ts:3-6 | `validateEmail` accepts exactly the strings that are non-empty, start with neither `'@'` nor `'.'`, contain an `'@'`, and contain a `'.'` before the last character. |
| `Forms.RejectsWithoutAtAfterStart` | utils/forms.ts:5 | A string with no `'@'`, or whose first character is `'@'`, is rejected. |
| `Forms.RejectsWithoutDotAfterStart` | utils/forms.ts:4-5 | A string with no `'.'`, or whose first character is `'.'`, is rejected. |
| `Forms.RejectsFirstDotLast` | utils/forms.ts:4-5 | A string whose only `'.'` is its last character is rejected. |
| `Forms.ValidateEmailFirstDotOnly` | utils/forms.ts:4-5 | Only the first `'@'` and the first dot matter: appending anything to an accepted string, trailing dots included, keeps it accepted. |
| `Forms.LeadingWhitespaceAccepted` | utils/forms.ts:3-7 | `validateEmail` does not trim: any whitespace in front of a string with an `'@'` and a `'.'` before its last character makes it accepted, even when the string starts with `'@'` or `'.'`. |
| `Forms.LeadingWhitespaceExample` | utils/forms.ts:3-6 | `"@a.b"` is rejected while `" @a.b"` is accepted. |
| `Forms.ValidateEmailExamples` | utils/forms.ts:3-6 | `""` and `UNSET` are rejected; `"a.b@c"`, `"a@b.c."`, and `"a.@"` are accepted; `"a@b."`, `"@a.b"` and `".a@b"` are rejected. |
| `Forms.ExistsIff` | utils/forms.ts:7 | `exists` holds exactly when the string has a non-whitespace character. |
| `Forms.UnsetDoesNotExist` | utils/forms.ts:2-7 | `exists(UNSET)` is false. |
| `Forms.TrimPadded` | utils/forms.ts:7 | Adding whitespace at either end does not change the trimmed string. |
| `Forms.ExistsPadded` | utils/forms.ts:7 | Adding whitespace at either end does not change the answer of `exists`. |
| `Leaderboard.BuildRequest` | pages/leaderboard.tsx:91-102 | `limit` is 25 and `search` is the debounced text; `country_code` is absent exactly when the country is `"Global"` and is the country otherwise; `event_type` is absent exactly when the view is `"Total Points"` and is the view otherwise. |
| `Leaderboard.BuildRequestRoundTrip` | pages/leaderboard.tsx:91-102 | Reading a missing key as its sentinel recovers the search text, the country and the view from the request. |
| `Leaderboard.BuildRequestInjective` | pages/leaderboard.tsx:91-102 | Different selector values never produce the same request. |
| `Leaderboard.BuildRequestExamples` | pages/leaderboard.tsx:91-102 | Global and Total Points give a request with neither optional key; `"CA"` and `"BUG_CAUGHT"` give both keys with those values. |
| `Leaderboard.Truthy` | pages/leaderboard.tsx:111 | A selector value passes the guard exactly when it is defined and non-empty. |
| `Leaderboard.AcceptResult` | pages/leaderboard.tsx:104-106 | An error response keeps the current list; a page response becomes the list. |
| `Leaderboard.DisplayedUsers` | pages/leaderboard.tsx:129 | The listed users are the list's `data`, or the empty sequence when no list has arrived. |
| `Leaderboard.DisplayedAfterResult` | pages/leaderboard.tsx:104-106 | After a page response the page lists that page's users. After an error response it lists what it listed before. |
| `Leaderboard.PaginationButtonsFor` | pages/leaderboard.tsx:367-375 | Previous is disabled exactly when there is no previous page, and Next exactly when there is no next page. |
| `Leaderboard.LeaderboardPage.constructor` | pages/leaderboard.tsx:76-83 | The page starts with no user list and not searching. |
| `Leaderboard.LeaderboardPage.BeginQuery` | pages/leaderboard.tsx:88-113 | A request is issued exactly when both selector values are defined and non-empty, and it is the `BuildRequest` of the current filter. `searching` is then true. Otherwise nothing changes. The user list is never touched. |
| `Leaderboard.LeaderboardPage.CompleteQuery` | pages/leaderboard.tsx:104-108 | An error response leaves the user list as it was. A page response replaces it wholesale. `searching` is false afterwards, whether the response is a page or an error. |
| `Leaderboard.LeaderboardPage.RunQuery` | pages/leaderboard.tsx:87-114 | Without both selector values nothing changes and no request is issued. Otherwise the request is the `BuildRequest` of the filter, the list is updated by the result's acceptance rule, and `searching` ends false. |
| `Leaderboard.OutOfOrderResponses` | pages/leaderboard.tsx:97-108 | When two queries overlap and their responses arrive newest first, the older response is what the page lists. `searching` is already false after the first arrival. |

## Left out

- Everything the page renders: markup, class lists, the banner, navbar, footer, toast, loader and rows. It is presentation with no logic to state.
- The `listUsers` network call and its asynchronous scheduling. The response is a parameter of `CompleteQuery` and `RunQuery`.
- `useDebounce` and its 300 ms timer, and the effect's dependency list that decides when the effect runs. The debounced text is a parameter. The hook's source is not part of this model.
- `usePaginatedUsers` and its `fetchNext`/`fetchPrevious`. That hook's source is not part of this model. The page hands the hook the whole response and `$setUserList`, so the hook is a second writer of `userList` that is not modelled; `hasPrevious`/`hasNext` are derived there. Only the button enablement visible on the page is modelled, from the values the hook returns.
- The login context, the queried toast, `useField` and the country table. These are collaborators whose source is not part of this model. Selector values are parameters (`Option<string>`, since a field may be undefined).
- Fields of a `listUsers` response other than `data`. The page's own code reads only `data`, and their shape is not part of this model.
- CompleteQuery: a rejected `listUsers` promise is not modelled; a response is only a page or an object with an `error` key. In the source a rejection throws at the await and nothing catches it, so `searching` is never lowered and the loader stays on screen.
- RunQuery: the same gap as CompleteQuery; a rejected request would leave `searching` raised in the source.
- `defaultErrorText`, a display string with no logic.
- Positions and lengths count Unicode scalar values rather than UTF-16 code units. Neither validator's answer depends on that, since each only tests a position against 0 and against the last position, or a length against 0. JavaScript strings holding unpaired surrogates are not expressible as Dafny strings, so the model does not cover them.
