# Polling app: record store and server actions

This project models the logic of a small polling web application in Dafny. There are two parts.

- **The record store** (`app/lib/db.ts`). It holds two ordered collections, `users` and `polls`, and each poll holds an ordered list of options `{id, text, votes}`.
  - Every operation loads the whole state, works on it, and writes the whole state back when it changes something.
  - `addUser` and `createPoll` append a record whose id is the collection's length plus one.
  - `findUserByEmail` and `getPollById` return the first matching record.
  - `voteOnPoll` finds a poll, then an option inside it, and raises that option's counter in place. When either lookup fails it writes nothing.
- **The server actions** (`app/lib/actions.ts`). They check form input and then call the store: `signup`, `login`, `logout`, `createPoll` and `submitVote`.

The files are:

- `wrappers.dfy`: `Option`.
- `collections.dfy`: `Array.prototype.find` as `FindIndex`, with its first-match specification. It also holds sums of a numeric field and the "id is position plus one" shape.
- `text.dfy`: `String.prototype.trim` of ECMA-262, section 22.1.3.32. White space and line terminators are as in sections 12.2 and 12.3.
- `db.dfy`: the records and the store.
  - `Store` is a class whose `users` and `polls` fields the methods reassign.
  - A ghost counter `writes` counts the times the state is written back.
  - The state a vote leaves is specified by `VoteTarget`, `WithVote` and `Voted`.
- `actions.dfy`: the actions.
  - Form fields are optional strings, and a field counts as given when it is present and non-empty (JavaScript truthiness).
  - The session cookie is an optional `{id, email}`.
  - `redirect` and `revalidatePath` become the outcome values `Redirected` and `Revalidated`.
- `scenarios.dfy`: the situations in `app/lib/db.test.ts` and `app/lib/actions.test.ts`, plus a create-then-vote run, stated as contracts of client methods.

`addUser` appends unconditionally; only `signup` looks for an existing email, and the password is stored as typed.

## Model

| member | source | states |
|---|---|---|
| Collections.FindIndex | app/lib/db.ts:54 | `find`: when there is a result, it is the position of the first element with the key; when there is none, no element has the key |
| Collections.FindIndexAppend | app/lib/db.ts:46-47 | appending records never changes what a search finds in the old records; a key found only in the appended part is found at its shifted position |
| Collections.FirstMatchUnique | app/lib/db.ts:54 | the first match is unique |
| Collections.PositionalIdsAreUnique | app/lib/db.ts:46 | when every id is its position plus one, no two records share an id |
| Collections.AppendKeepsPositions | app/lib/db.ts:46-47 | appending the record numbered length plus one keeps ids positional |
| Collections.PositionalFind | app/lib/db.ts:65 | under positional ids, the search for id n lands on position n-1 exactly when 1 <= n <= length, and finds nothing otherwise |
| Text.TrimStartShape | app/lib/actions.ts:61 | the leading part that `trim` drops is all white space, and what remains does not start with white space |
| Text.TrimEndShape | app/lib/actions.ts:61 | the trailing part that `trim` drops is all white space, and what remains does not end with white space |
| Text.Trim | app/lib/actions.ts:61 | `o.trim()` is empty exactly when every character of `o` is white space |
| Text.TrimShape | app/lib/actions.ts:61 | the trimmed string is a contiguous piece of the input, everything before and after it is white space, and a non-empty result neither starts nor ends with white space |
| Db.VotesKeptReflexive | app/lib/db.ts:82 | leaving the polls alone keeps every counter |
| Db.VotesKeptTransitive | app/lib/db.ts:82 | "no counter went down" composes over a sequence of operations |
| Db.AppendKeepsVotes | app/lib/db.ts:70-71 | appending a poll keeps every existing poll, its option count and its counters |
| Db.VoteTarget | app/lib/db.ts:78-81 | a vote lands on the first poll with the id and the first option with the id in it; there is no target when no poll has the id, or when the first such poll has no such option |
| Db.PositionalVoteTarget | app/lib/db.ts:78-81 | with positional ids, the target is poll pollId-1 and option optionId-1 exactly when both are in range |
| Db.WithVote | app/lib/db.ts:82 | one vote raises that option's counter by exactly one; every other counter, every id, text, question and creator, and every other poll stay the same |
| Db.Voted | app/lib/db.ts:76-88 | the polls after a vote: `WithVote` at `VoteTarget`'s slot, or the polls unchanged when there is no slot; the number of polls never changes, and the polls change exactly when the vote finds its slot |
| Db.WithVoteAddsOne | app/lib/db.ts:82 | one vote adds exactly one to the total number of votes in the store |
| Db.AppendPollTotal | app/lib/db.ts:70-71 | appending a poll adds exactly that poll's votes to the store's total |
| Db.VotedCountsOnce | app/lib/db.ts:76-88 | a vote that finds its target adds one vote in total; a vote that finds none leaves the polls as they were |
| Db.VotedKeepsVotes | app/lib/db.ts:82 | voting never lowers a counter |
| Db.VotedKeepsShape | app/lib/db.ts:80-83 | voting keeps poll ids positional and every poll's options well formed |
| Db.Store.Empty | app/lib/db.ts:28-31 | the fallback state has no users and no polls, has never been written, and satisfies the id invariant |
| Db.Store.Load | app/lib/db.ts:24-27 | the loaded state is exactly the given users and polls |
| Db.ValidPollLookup | app/lib/db.ts:63-66 | in a store whose ids are positions plus one, `getPollById(n)` finds a poll exactly when 1 <= n <= count, and it is the n-th poll |
| Db.ValidVoteTarget | app/lib/db.ts:78-81 | in such a store a vote lands exactly when both numbers are in range, on poll pollId-1 and its option optionId-1 |
| Db.Store.FindUserByEmail | app/lib/db.ts:52-55 | the result is the first user whose email equals the given one exactly; there is none exactly when no user has that email; the store is only read |
| Db.Store.GetPollById | app/lib/db.ts:63-66 | the result is the first poll with the id; there is none exactly when no poll has it; the store is only read |
| Db.Store.AddUser | app/lib/db.ts:44-50 | appends exactly one user numbered one past the old count, with the given email and password; polls are unchanged; one write; the id invariant is kept |
| Db.Store.CreatePoll | app/lib/db.ts:68-74 | appends exactly one poll numbered one past the old count, with question, options and creator as given; users are unchanged; one write; no counter goes down; the invariant is kept when the options are well formed |
| Db.Store.VoteOnPoll | app/lib/db.ts:76-88 | the new polls are `Voted` of the old ones; returns the updated poll exactly when both lookups succeed; writes once on success and never on failure; users are unchanged; no counter goes down; the invariant is kept |
| Actions.NonBlankOptions | app/lib/actions.ts:61 | no more options than the form had, and every option kept is non-empty after trimming |
| Actions.NonBlankOptionsMembers | app/lib/actions.ts:61 | a text is kept exactly when it was in the form and is non-empty after trimming |
| Actions.NonBlankOptionsAppend | app/lib/actions.ts:61 | filtering distributes over concatenation, so survivors keep their form order and untrimmed text |
| Actions.BlankOptionDropped | app/lib/actions.ts:61 | a form holding only a blank option keeps nothing |
| Actions.BlankOptionIgnored | app/lib/actions.ts:61 | inserting a blank option anywhere in the form does not change the options kept |
| Actions.NumberedOptions | app/lib/actions.ts:76 | the i-th kept text becomes option i+1 with that text and 0 votes |
| Actions.NumberedOptionsReady | app/lib/actions.ts:76 | with two or more texts the new options are well formed, hold no votes in all, and option number n is found exactly when 1 <= n <= count |
| Actions.NewPollAddsNoVotes | app/lib/actions.ts:74-78 | the poll a form creates has every counter at 0, so the store's total number of votes is unchanged |
| Actions.Signup | app/lib/actions.ts:8-25 | a missing or empty field gives "Email and password are required." and no change; a taken email gives "User with this email already exists." and no change; otherwise exactly one user is appended with the password as typed, and the browser goes to /login |
| Actions.Login | app/lib/actions.ts:27-51 | a missing or empty field gives "Email and password are required."; success happens exactly when the first user with the email has the typed password, and the session then holds that user's id and email; otherwise the result is "Invalid email or password." and the session is left unchanged |
| Actions.Logout | app/lib/actions.ts:53-57 | the session is cleared and the browser goes to /login |
| Actions.CreatePoll | app/lib/actions.ts:59-81 | a missing question or fewer than two kept options gives "Question and at least two options are required." and no change, whatever the session; with no session the browser goes to /login and nothing is created; otherwise exactly one poll is appended with the kept options numbered 1..n with 0 votes, made by the session's user, and the browser goes to that poll's page |
| Actions.SubmitVote | app/lib/actions.ts:83-86 | casts the vote exactly as the store does and revalidates /polls/<pollId>, whether or not the vote found its target |
| Scenarios.OnlyRedKept | app/lib/actions.test.ts:83-95 | of "Red" and "" only "Red" survives |
| Scenarios.TwoOptionsKept | app/lib/actions.test.ts:43-55 | two options that are not blank both survive, in order |
| Scenarios.TwoOptionsNumbered | app/lib/actions.ts:76 | two kept options become options 1 and 2 with no votes |
| Scenarios.FirstVoteForOptionOne | app/lib/actions.ts:74-85 | in a store holding poll 1 with options 1 and 2, a vote for option 1 raises only the first counter |
| Scenarios.CreateTwoOptionPoll | app/lib/actions.test.ts:43-55 | a logged-in user's form with a question and two options stores the next poll with options 1 and 2 and redirects to its page |
| Scenarios.CreateThenVote | app/lib/actions.ts:74-85 | on an empty store the poll is poll 1 with options 1 and 2, and one vote for option 1 gives the tallies 1 and 0 |
| Scenarios.FavoriteColor | app/lib/actions.test.ts:43-55 | "Favorite color?" with Red and Blue gives options 1 and 2; after one vote for Red the tallies are 1 and 0 |
| Scenarios.IncompletePollForms | app/lib/actions.test.ts:57-95 | a form whose second option is empty, and a form with no question, are both refused with the form error and leave the store unchanged |
| Scenarios.SignupTwice | app/lib/actions.ts:16-19 | a second signup with the same email is refused, and at most one user is added in all |
| Scenarios.SignupThenLogin | app/lib/actions.ts:8-51 | signing up with a new email and then logging in with the same fields succeeds, and the session holds the new user's id and email |
| Scenarios.VotesOnSinglePoll | app/lib/db.test.ts:105-125 | on a store holding only poll 1 with option 1, votes for poll 999 and for option 999 return nothing, a vote for option 1 returns the poll with that counter one higher, the store ends with that poll, and exactly one write happens in all |
| Scenarios.FixtureVotes | app/lib/db.test.ts:105-125 | on the test fixture an unknown poll and an unknown option both return nothing, a vote for option 1 of poll 1 returns that poll with one vote, the users are unchanged, and only the successful vote writes (one write in all) |

## Left out

- Reading and writing `db.json` (`fs.readFile`, `fs.writeFile`, `JSON.parse`, `JSON.stringify`). The persisted state is the store's fields. A write is counted by `writes`, not rendered as text, so the write/read round trip of the JSON text is not modelled.
- Db.Store.Load: it takes the parsed users and polls as given, and a file that fails to parse is modelled only by `Empty`.
- Concurrency. Every operation reads the whole file and writes it back, so two concurrent votes can lose one update. The model is sequential.
- Next.js `cookies()`, `redirect` and `revalidatePath`. They become the session parameter and the outcome values. Cookie options (path, httpOnly, one-day lifetime), `JSON.parse` of the cookie value and the logout route are not modelled.
- The `as string` casts of form values. A field that holds a file rather than a string is not modelled, and a missing field is `None`.
- Db.Store.GetUsers: carries no contract, because it returns the stored users as they are.
- Db.Store.GetPolls: carries no contract, because it returns the stored polls as they are.
- Text.Trim: works on Unicode scalar values, whereas JavaScript strings are UTF-16 code units. All characters that `trim` removes are in the Basic Multilingual Plane, so only the handling of unpaired surrogates differs.
- Number types. Ids and counters are unbounded integers, and JavaScript's floating-point numbers (their precision limit at 2^53) are not modelled.
- The percentage display and all UI and rendering: pages, components, forms and the QR code.
- Password hashing and cookie signing. The code performs neither, so the model stores the password as typed.
