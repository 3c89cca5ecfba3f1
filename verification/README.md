# Direct-democracy voting: vote session and argument list

This project models the two pieces of the web application that hold state
logic of their own. Everything else in the application is layout, routing,
static text or calls to the hosted authentication and document store.

- **The voting page of a proposal** (`src/pages/Vote.js`) is the class
  `Vote.VoteSession`. It holds the loaded proposal, the amount of vote points
  typed in (`votePoints`), the remaining allowance (`remainingVotes`, starting
  at 1000) and the displayed error. The store is not modelled. Its answer to
  the proposal read is the parameter `FetchOutcome`
  (`Found | NotFound | FetchFailed`). Its answer to the increment is the
  parameter `CommitOutcome` (`Committed | CommitFailed`). The one write the
  page asks of the store comes back from the vote handler as an
  `Increment(doc, option, amount)` on the proposal document `doc` named by
  the route, or `None` when no store call is made. `Apply`
  gives the stored tally after the store has applied it. A ghost history
  `committed` of confirmed amounts carries the budget invariant:
  `remainingVotes == 1000 - Sum(committed) >= 0`.
- **The argument list under a proposal** (`src/components/ProposalArguments.js`)
  is the class `ProposalArguments.ArgumentBoard`. It holds a list of at most
  five `{text, up, down}` records and the text being typed. Its submit handler
  applies the word-count guard, then the length guard. The word count
  `inputValue.trim().split(/\s+/).length` is modelled in module `WordCounting`
  with the ECMAScript whitespace set. That module proves the count equals the
  number of words, except that text with no word counts as one.

Each handler is modelled as one atomic step. The page's forms exist only
while they are rendered: `FormVisible` is the condition of the two early
returns of the render function, and `PressVoteButton` is a click on one of
the three vote buttons.

Behaviour of the code worth knowing:
- A found proposal does not clear an earlier error.
- A validation error is not recoverable. Any non-empty error replaces the
  whole page, so after the first "valid number" or "not enough" error no
  form is shown again. The clearing of the error after a committed vote can
  only run when no error was showing.
- A negative amount can be entered (`parseInt("-5")` is -5); the positivity
  guard rejects it.
- A response that arrives after the page is left is not discarded.
- src/pages/Vote.js:46 escapes its backticks, which JavaScript rejects; the
  model takes the evident key, the template literal `votes.${voteType}`.

## Model

| member | source | states |
|---|---|---|
| `Vote.VoteSession.constructor` | src/pages/Vote.js:10-13 | no proposal, 0 points, an allowance of 1000 and no error; the budget invariant holds |
| `Vote.VoteSession.FetchProposal` | src/pages/Vote.js:17-28 | found: the proposal is set and the error is left as it was; not found: error "Proposal not found." and the proposal stays as it was; failure: error "Error fetching proposal: " + cause; points and allowance never change; after any non-found answer, and whenever an error was already showing, the form is hidden |
| `Vote.VoteSession.SetVotePoints` | src/pages/Vote.js:72 | unparsable input gives 0 points, a parsed integer is taken as is; the budget invariant is kept |
| `Vote.Check` | src/pages/Vote.js:34-41 | the guards in their order: the amount is accepted exactly when 0 < points <= remaining; a non-positive amount is an invalid amount even when it also exceeds the budget; "not enough" exactly when the amount is positive and over the budget |
| `Vote.VoteSession.HandleVote` | src/pages/Vote.js:33-56 | a rejected amount makes no store call and sets its message, leaving points, allowance and history unchanged; an accepted one requests exactly `Increment(id, option, points)`, an increment of the chosen field of the route's proposal document; on commit the allowance drops by exactly the points, points become 0, the error is cleared and the amount joins the history; on a failed commit only the error changes; the proposal is never changed; the allowance never increases and stays `1000 - Sum(committed) >= 0` |
| `Vote.VoteSession.PressVoteButton` | src/pages/Vote.js:58-88 | `FormVisible` is the condition under which neither early return at lines 58-59 fires; when the form is hidden (an error is showing or no proposal is loaded), a button press makes no store call and changes nothing; otherwise it is the vote handler |
| `Vote.Apply` | src/pages/Vote.js:44-47 | the store's increment adds the amount to the chosen tally field only; the other two fields are unchanged |
| `Vote.IncrementsCommute` | src/pages/Vote.js:45-46 | two increments applied in either order give the same tally |
| `WordCounting.Trim` | src/components/ProposalArguments.js:15 | `trim`: the result is the slice of the input that starts at the first non-whitespace character; everything before and after it is whitespace, and a non-empty result starts and ends with non-whitespace |
| `WordCounting.SplitFrom` | src/components/ProposalArguments.js:15 | `split(/\s+/)` always yields at least one piece |
| `WordCounting.Split` | src/components/ProposalArguments.js:15 | `split(/\s+/)` of the whole text: `SplitFrom` from position 0, at least one piece |
| `WordCounting.WordCount` | src/components/ProposalArguments.js:15 | the length of `trim().split(/\s+/)`, always at least 1; its exact value is given by `WordCountIsWords` |
| `WordCounting.SplitPiecesHaveNoSpace` | src/components/ProposalArguments.js:15 | no piece of a split contains whitespace |
| `WordCounting.SplitCountsWords` | src/components/ProposalArguments.js:15 | on text that begins and ends with non-whitespace, the number of pieces equals the number of words |
| `WordCounting.WordCountIsWords` | src/components/ProposalArguments.js:15 | the length of `trim().split(/\s+/)` is the number of maximal non-whitespace runs, or 1 when there is none |
| `WordCounting.BlankTextIsOneWord` | src/components/ProposalArguments.js:15 | empty or all-whitespace text counts as one word |
| `ProposalArguments.Admission` | src/components/ProposalArguments.js:15-23 | rejected for too many words exactly when the text has more than 50 words, whatever the list length; rejected as full exactly when it has at most 50 words and the list has 5 or more entries; admitted otherwise |
| `ProposalArguments.ArgumentBoard.constructor` | src/components/ProposalArguments.js:9-10 | an empty list and an empty input |
| `ProposalArguments.ArgumentBoard.SetInput` | src/components/ProposalArguments.js:69 | the input becomes the typed text; the list is untouched |
| `ProposalArguments.ArgumentBoard.Submit` | src/components/ProposalArguments.js:13-27 | the outcome is `Admission` of the input and the list length; when admitted, `{text: input, up: 0, down: 0}` is appended after the unchanged earlier entries and the input is cleared; when rejected, list and input are unchanged; the list never exceeds 5 entries and all counters stay >= 0 |
| `ProposalArguments.Upvoted` | src/components/ProposalArguments.js:30-34 | entry `index` gets `up + 1` and a net score one higher; its `down` and every other entry are unchanged, and so is the length |
| `ProposalArguments.Downvoted` | src/components/ProposalArguments.js:36-40 | entry `index` gets `down + 1` and a net score one lower; its `up` and every other entry are unchanged, and so is the length |
| `ProposalArguments.ArgumentBoard.Upvote` | src/components/ProposalArguments.js:30-34 | for an index inside the list the list becomes `Upvoted`; an index outside it (the handler throws before the list is replaced) changes nothing; the counters stay >= 0 |
| `ProposalArguments.ArgumentBoard.Downvote` | src/components/ProposalArguments.js:36-40 | for an index inside the list the list becomes `Downvoted`; an index outside it changes nothing; the counters stay >= 0 |

## Left out

- The document store calls (`getDoc`, `updateDoc`, `increment`) are left out. Their answers are parameters and the write is returned as a request. Atomicity across concurrent users belongs to the store.
- The asynchronous effect that runs the fetch, React re-rendering and the closure values that the setters read are left out. Each handler is one atomic step. In the code, the guard at src/pages/Vote.js:38 and the deduction at src/pages/Vote.js:49 read `remainingVotes` from the closure, so a second button press while the first `updateDoc` is pending sends a second increment but reduces the allowance only once; the invariant `remainingVotes == 1000 - Sum(committed)` holds for the atomic-step model only.
- `parseInt` itself is left out; its result enters `SetVotePoints` as an optional integer.
- `alert` pop-ups are left out. They appear as the rejected `SubmitOutcome` values.
- Rendering and layout are left out, except for the two early returns of the voting page that decide whether its form is shown.
- The bar chart (src/components/VotingChart.js) is a wrapper over a charting library and is left out.
- Authentication, routing, translations and the static pages are left out; they hold no logic of their own.
- `NetScore` is the net score displayed at src/components/ProposalArguments.js:57. It has no contract of its own; `Upvoted` and `Downvoted` state how it changes.
