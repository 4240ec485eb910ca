# Notary profile page — verified model of its logic

The profile page (`components/profile-page.tsx`) shows one notary signing
agent's directory profile. Almost all of the component is layout. Two parts of it hold real logic,
and this project models both in Dafny and proves what they do:

- **Display derivations** (module `ProfileDisplay`, built on the JavaScript
  built-ins in module `Js`):
  - the full name ``name || `${firstName || ""} ${lastName || ""}`.trim() || "Unknown"``;
  - the avatar initials `fullName.split(" ").map(n => n[0]).join("")`;
  - the `||` fallback chains that pick each displayed field, or a literal default.

  These are pure expressions, so they are modelled as functions and lemmas.
  JavaScript truthiness is modelled exactly: a missing value (`undefined` or
  `null`, written `None`) and `""` are falsy.
- **Fetch and view state** (module `ProfileState`):
  - the component keeps three state cells: `loading`, `error` and `profile`;
  - `fetchUserProfile` updates them step by step in a try/catch/finally;
  - the component picks one of four views from them, in a fixed priority.

  The cells are fields of class `ProfilePage`. Its methods `Begin`, `Succeed`,
  `Fail`, `Finish` and `FetchUserProfile` each tie the new state to a pure
  transition function (`StartLoading`, `StoreProfile`, `StoreError`,
  `StopLoading`, `AfterFetch`). The properties are proved about those functions.

The HTTP request becomes a `FetchOutcome` parameter, with three cases:
- `Ok(data)`: an ok response and its parsed body;
- `NotOk`: a response whose `ok` is false;
- `Threw(t)`: `fetch` or `response.json()` threw `t`, which is an `Error` with a
  message or some other value.

What the model shows about the code as written:
- The error is never reset to `null`. Once a fetch has failed with a non-empty
  message, every later fetch ends in the error view, a successful retry
  included (`RetryKeepsError`, `ErrorIsSticky`). The one exception is a later
  fetch that throws an `Error` whose message is `""`: it overwrites the error
  with a falsy value and the error view goes away (`EmptyErrorMessageNotShown`).
- A failure never touches the profile.
- A thrown `Error` whose message is `""` is stored, but it is falsy. The page
  then skips the error view (`EmptyErrorMessageNotShown`).
- A truthy `name` is shown exactly as sent, without trimming, so `" "` stays
  `" "` and gives no initials (`BlankNameKept`).

Three things a reader might expect of a profile loader that this code does
not do, and the model does not do either:
- There is no normalisation layer. The parsed JSON body is stored as-is
  (profile-page.tsx:105-107), and the only defaulting is the display-time
  `||` chains.
- The message for a response that is not ok is exactly
  `"Failed to fetch profile data"`, with no status code.
- A successful retry does not clear an earlier error: the error view stays.

## Model

| member | source | states |
|---|---|---|
| `Js.FalsyValues` | components/profile-page.tsx:129 | the truthiness test of `if (error)` and of every logical or: a string-valued field is falsy exactly when it is missing (`undefined` or `null`) or the empty string |
| `Js.Or` | components/profile-page.tsx:156 | JavaScript's logical or with a string fallback: the value when it is truthy, otherwise the fallback; the result is empty only when the value is falsy and the fallback is empty |
| `Js.TrimStart` | components/profile-page.tsx:156 | the result is the suffix of the input that starts at its first non-white-space character; everything dropped is white space |
| `Js.TrimEnd` | components/profile-page.tsx:156 | the result is the prefix of the input that ends at its last non-white-space character; everything dropped is white space |
| `Js.Trim` | components/profile-page.tsx:156 | `trim()` is empty exactly when the input is all white space; otherwise it starts and ends with a character that is not white space |
| `Js.TrimTrimmed` | components/profile-page.tsx:156 | a string without surrounding white space is a fixed point of `trim()` |
| `Js.TrimSurrounded` | components/profile-page.tsx:156 | white space before and after a string does not change its `trim()` |
| `Js.Split` | components/profile-page.tsx:168 | `split(" ")` gives at least one piece; no piece contains the separator; joining the pieces with the separator gives the input back |
| `Js.JoinSplit` | components/profile-page.tsx:168 | the other direction of the round trip: splitting the join of separator-free pieces gives back the same pieces |
| `ProfileDisplay.FirstTruthy` | components/profile-page.tsx:184-186 | a chain of logical ors gives the first truthy candidate, or the literal default when no candidate is truthy; it is empty only when the default is empty |
| `ProfileDisplay.Part` | components/profile-page.tsx:312-328 | `billingAddress?.part` is `undefined` when the address is missing, and the address's own part when it is present |
| `ProfileDisplay.JoinedPartsCases` | components/profile-page.tsx:156 | the template literal: a missing or empty part contributes nothing (never the text "undefined"), and the space between the parts is always there |
| `ProfileDisplay.TrimmedOrUnknown` | components/profile-page.tsx:156 | the tail of the chain, the trim or else "Unknown": never empty and without surrounding white space; "Unknown" exactly for an all-white-space string, its trim otherwise |
| `ProfileDisplay.FullName` | components/profile-page.tsx:156 | the full name is never empty; a truthy `name` is shown unchanged, untrimmed; otherwise the result has no surrounding white space |
| `ProfileDisplay.FullNameBothParts` | components/profile-page.tsx:156 | with `name` falsy and both parts non-empty and untrimmable, the full name is `first + " " + last`; a worked special case of `FullNameBothNonBlank` |
| `ProfileDisplay.FullNameFirstOnly` | components/profile-page.tsx:156 | with `name` falsy and the last name missing, empty or all white space, the full name is the trimmed first name, or "Unknown" when that is blank too |
| `ProfileDisplay.FullNameLastOnly` | components/profile-page.tsx:156 | with `name` falsy and the first name missing, empty or all white space, the full name is the trimmed last name, or "Unknown" when that is blank too |
| `ProfileDisplay.FullNameBothNonBlank` | components/profile-page.tsx:156 | with `name` falsy and both parts holding a non-white-space character, the full name is the first name without leading white space, a space, and the last name without trailing white space; inner white space is kept ("Jane " and "Doe" give "Jane  Doe"). With the two lemmas above, every input is covered |
| `ProfileDisplay.FullNameUnknown` | components/profile-page.tsx:156 | with `name` falsy and both parts missing, empty or white space, the full name is "Unknown" |
| `ProfileDisplay.JoinRendered` | components/profile-page.tsx:170 | `.join("")` over `n[0]` values: `undefined` renders as nothing, so the result has at most one character per value, none when every value is `undefined`, and, when none is, exactly the values' characters in order |
| `ProfileDisplay.Initials` | components/profile-page.tsx:167-170 | the initials expression equals the word starts of the name: the characters that are not a space and open the name or follow a space |
| `ProfileDisplay.InitialsPerPiece` | components/profile-page.tsx:167-170 | mapping `n[0]` over the pieces and joining with "" gives exactly one character per non-empty piece, its first one, in order |
| `ProfileDisplay.SplitWordStarts` | components/profile-page.tsx:167-170 | the initials equal an independent definition: the characters of the name that are not a space and open the name or follow a space |
| `ProfileDisplay.InitialsShape` | components/profile-page.tsx:167-170 | the initials contain no space, are no longer than the name, and are empty exactly when the name is all spaces |
| `ProfileDisplay.InitialsOfUnknown` | components/profile-page.tsx:167-170 | the fallback name "Unknown" gives the initial "U" |
| `ProfileDisplay.InitialsOfThreeWords` | components/profile-page.tsx:167-170 | "Jane Q Public" gives "JQP" |
| `ProfileDisplay.InitialsSkipEmptyPieces` | components/profile-page.tsx:167-170 | repeated and trailing spaces add nothing: "Jane  Doe " gives "JD" |
| `ProfileDisplay.Introduction` | components/profile-page.tsx:184-186 | the introduction shows `introduction`, else `bio`, else the default paragraph |
| `ProfileDisplay.PhoneRows` | components/profile-page.tsx:276-280 | the phone table has the four rows Office, Mobile, Home, Alternate in that order; each shows its truthy field or "415 730-8955"; none is empty |
| `ProfileDisplay.RenderBilling` | components/profile-page.tsx:312-328 | for each of address line 1, line 2, city, state and zip: a truthy part of a present address is shown as sent, a falsy part or a missing address shows the default ("480 Fillmore St., #2", "", "San Francisco", "CA", "94117"); only line 2 can be empty |
| `ProfileDisplay.WorkEmail` | components/profile-page.tsx:351 | the work e-mail shows `workEmail`, else `email`, else "notary@signingagent.com"; it is never empty |
| `ProfileDisplay.Render` | components/profile-page.tsx:156-351 | the loaded page: the full name is `FullName` and its initials are its word starts; avatar image, company name and business-since show a truthy field as sent and otherwise "/placeholder.svg?height=128&width=128", "N/A" and "01/17/2006"; introduction, phone rows, billing block and work e-mail are the chains stated above |
| `ProfileDisplay.EmptyProfileView` | components/profile-page.tsx:156-186 | a profile with no field set shows "Unknown", initial "U", the default work e-mail, "N/A" and the default introduction |
| `ProfileDisplay.BlankNameKept` | components/profile-page.tsx:156-170 | `name = " "` is shown as `" "`, not replaced by the first and last name, and gives empty initials |
| `ProfileState.RunAttempt` | components/profile-page.tsx:101-107 | the try block completes only on an ok response, with its body; a response that is not ok throws an `Error` whose message is "Failed to fetch profile data"; a throw passes through |
| `ProfileState.CaughtMessage` | components/profile-page.tsx:109 | an `Error` gives its own message; any other thrown value gives "An error occurred" |
| `ProfileState.StartLoading` | components/profile-page.tsx:90 | `loading` becomes true; `error` and `profile` are unchanged |
| `ProfileState.StoreProfile` | components/profile-page.tsx:107 | `profile` becomes the parsed body; the other cells are unchanged |
| `ProfileState.StoreError` | components/profile-page.tsx:109 | `error` becomes the caught message; the other cells are unchanged |
| `ProfileState.StopLoading` | components/profile-page.tsx:111-113 | `loading` becomes false; the other cells are unchanged |
| `ProfileState.AfterFetch` | components/profile-page.tsx:88-114 | after a run, `loading` is false whatever the outcome. On success only `profile` changes. A response that is not ok sets `error` to exactly "Failed to fetch profile data" and keeps `profile`. Thrown values set their message. A set `error` is never cleared |
| `ProfileState.SelectView` | components/profile-page.tsx:121-154 | the spinner exactly while loading; otherwise the error view exactly when `error` is truthy; otherwise "no profile" exactly when the profile is missing; otherwise the rendered profile |
| `ProfileState.FetchAlwaysEndsLoading` | components/profile-page.tsx:111-127 | after any complete fetch the spinner is not shown |
| `ProfileState.RetryKeepsError` | components/profile-page.tsx:129-136 | with a truthy error, a successful "Try Again" still ends in the same error view |
| `ProfileState.EmptyErrorMessageNotShown` | components/profile-page.tsx:109-154 | from any state, including "Try Again" while an error is shown: an `Error` with an empty message replaces the error with a falsy value, so the page shows the profile or "no profile" instead of an error |
| `ProfileState.FirstFetch` | components/profile-page.tsx:79-154 | the mounted page shows the spinner; the first fetch shows the loaded page for a profile body, "no profile" for a falsy body, "Failed to fetch profile data" for a response that is not ok, and for a throw its caught message ("An error occurred" for a non-`Error`), or "no profile" when that message is empty |
| `ProfileState.AfterFetches` | components/profile-page.tsx:88-136 | repeated "Try Again" clicks, each fetch running to completion: no fetch leaves the state unchanged; after at least one, loading is over; a set error stays set; the last fetch's fixed message wins when it is a response that is not ok or a non-`Error` throw |
| `ProfileState.AfterFetchesSnoc` | components/profile-page.tsx:88-136 | the state after one more click is `AfterFetch` of the state before it, so every cell (loading, error and profile) after any sequence of clicks follows from `AfterFetch`'s full contract |
| `ProfileState.ErrorIsSticky` | components/profile-page.tsx:108-136 | once a settled state holds a truthy error, every sequence of later fetches ends in the error view, unless a fetch throws an `Error` with an empty message |
| `ProfileState.ProfilePage.constructor` | components/profile-page.tsx:79-81 | the page starts with `profile` null, `loading` true, `error` null |
| `ProfileState.ProfilePage.Begin` | components/profile-page.tsx:90 | the new state is `StartLoading` of the old one |
| `ProfileState.ProfilePage.Succeed` | components/profile-page.tsx:107 | the new state is `StoreProfile` of the old one |
| `ProfileState.ProfilePage.Fail` | components/profile-page.tsx:108-109 | the new state is `StoreError` of the old one |
| `ProfileState.ProfilePage.Finish` | components/profile-page.tsx:111-113 | the new state is `StopLoading` of the old one |
| `ProfileState.ProfilePage.FetchUserProfile` | components/profile-page.tsx:88-114 | running the four steps in try/catch/finally order leaves the state `AfterFetch` describes: `loading` false, a set error still set, the profile kept on failure |
| `ProfileState.ProfilePage.CurrentView` | components/profile-page.tsx:121-127 | the view of the current cells is the spinner exactly while loading |

## Left out

- The JSX layout, CSS classes, icons and UI components. They are presentational only.
- The network request: the endpoint, the POST body with its fixed username, and `response.json()` parsing. These are I/O, so they are replaced by the `FetchOutcome` parameter.
- A parsed body that is truthy but not an object (for example a number). The model's body is a profile record or a falsy value (`None`).
- Profile fields that hold a non-string JSON value (for example a number in `name`). The model's fields are strings or missing.
- Fields of the `UserProfile` interface that the page never reads (`phone`, `shippingAddress`, `licenses`, `pricing`, …). They have no effect on what is shown.
- `useEffect` scheduling, React's re-render timing, and a "Try Again" click while a fetch is still in flight. These are asynchronous behaviour of React and the browser. The model treats each fetch as running to completion before the next one starts.
- `console.log` and `console.error`. These are logging side effects.
- The e-mail form and `handleSendEmail`. The form only captures input, and the handler's body does nothing.
- The constant tables for licences, pricing, capabilities and availability (lines 374-376, 396-403, 431-458, 482-509). They never read the profile, so there is no logic in them.
- `Js.IsWhiteSpace` lists the ECMAScript WhiteSpace and LineTerminator code points, with category Zs written out as of current Unicode. It does not follow later Unicode versions.
- `ProfileDisplay.At0` takes the first character of a Dafny string. JavaScript's `n[0]` takes the first UTF-16 code unit, which differs for a name that starts with a character outside the Basic Multilingual Plane.
- `ProfileDisplay.MapAt0`: its contract states only that the mapped sequence has one entry per piece. What the entries are is stated by `InitialsPerPiece` and `SplitWordStarts`.
