/**
 * The server actions of app/lib/actions.ts: each checks its form input and
 * then reads or changes the record store. Form fields are optional strings,
 * the session cookie is an optional `{id, email}` record that is trusted as
 * it is, and Next.js's `redirect` and `revalidatePath` are the outcome values
 * `Redirected` and `Revalidated`.
 */
module Actions {
  import opened Wrappers
  import opened Collections
  import opened Text
  import opened Db

  /** The `email` and `password` fields of the signup and login forms. */
  datatype Credentials = Credentials(email: Option<string>, password: Option<string>)

  /** The `question` field and every `option` field of the poll form, in form order. */
  datatype PollForm = PollForm(question: Option<string>, options: seq<string>)

  /** What the `user` cookie holds. */
  datatype SessionUser = SessionUser(id: int, email: string)

  /** The pages the actions redirect to: `/login`, `/polls` and `/polls/<id>`. */
  datatype Route = LoginPage | PollsPage | PollPage(id: int)

  /** How an action ends: an `{ error }` result, a redirect, or a revalidated page. */
  datatype Outcome = Failed(error: string) | Redirected(to: Route) | Revalidated(path: Route)

  const CredentialsRequired: string := "Email and password are required."
  const UserExists: string := "User with this email already exists."
  const InvalidCredentials: string := "Invalid email or password."
  const PollFormIncomplete: string := "Question and at least two options are required."

  /** A form field counts as given when it is present and not the empty string (JavaScript truthiness). */
  predicate Filled(field: Option<string>)
  {
    field.Some? && field.value != ""
  }

  /** An option text survives the form's filter when it is not empty once trimmed. */
  predicate Kept(option: string)
  {
    Trim(option) != ""
  }

  /**
   * The option texts that are not empty after trimming, in form order and
   * with their original, untrimmed text.
   */
  function NonBlankOptions(options: seq<string>): (r: seq<string>)
    ensures |r| <= |options|
    ensures forall j :: 0 <= j < |r| ==> Kept(r[j])
    decreases |options|
  {
    if options == [] then []
    else
      var rest := NonBlankOptions(options[1..]);
      if Kept(options[0]) then [options[0]] + rest else rest
  }

  /** An option text is kept exactly when it was in the form and survives trimming. */
  lemma {:induction false} NonBlankOptionsMembers(options: seq<string>, o: string)
    ensures o in NonBlankOptions(options) <==> o in options && Kept(o)
    decreases |options|
  {
    if options != [] {
      NonBlankOptionsMembers(options[1..], o);
      assert options == [options[0]] + options[1..];
    }
  }

  /** Filtering a concatenation is concatenating the filtered parts, so the order is kept. */
  lemma {:induction false} NonBlankOptionsAppend(a: seq<string>, b: seq<string>)
    ensures NonBlankOptions(a + b) == NonBlankOptions(a) + NonBlankOptions(b)
    decreases |a|
  {
    if a == [] {
      assert a + b == b;
    } else {
      assert (a + b)[1..] == a[1..] + b;
      NonBlankOptionsAppend(a[1..], b);
    }
  }

  /** A form holding only a blank option keeps nothing. */
  lemma BlankOptionDropped(blank: string)
    requires IsBlank(blank)
    ensures NonBlankOptions([blank]) == []
  {
    assert Trim(blank) == "";
    assert [blank][1..] == [];
  }

  /** A blank option anywhere in the form makes no difference to the options kept. */
  lemma {:induction false} BlankOptionIgnored(a: seq<string>, blank: string, b: seq<string>)
    requires IsBlank(blank)
    ensures NonBlankOptions(a + [blank] + b) == NonBlankOptions(a + b)
  {
    BlankOptionDropped(blank);
    var front := a + [blank];
    NonBlankOptionsAppend(front, b);
    NonBlankOptionsAppend(a, [blank]);
    NonBlankOptionsAppend(a, b);
    assert NonBlankOptions(front) == NonBlankOptions(a);
  }

  /** The kept texts as new options: the i-th gets id i + 1 and no votes. */
  function NumberedOptions(texts: seq<string>): (r: seq<PollOption>)
    ensures |r| == |texts| && IdsArePositions(r, OptionIdOf)
    ensures forall i :: 0 <= i < |r| ==> r[i].text == texts[i] && r[i].votes == 0
  {
    seq(|texts|, i requires 0 <= i < |texts| => PollOption(i + 1, texts[i], 0))
  }

  /**
   * A new poll's options are well formed once two texts survive, start with
   * no votes at all, and every option number 1..n finds its option.
   */
  lemma NumberedOptionsReady(texts: seq<string>, n: int)
    requires |texts| >= 2
    ensures WellFormedOptions(NumberedOptions(texts))
    ensures Sum(NumberedOptions(texts), VotesOf) == 0
    ensures FindIndex(NumberedOptions(texts), OptionIdOf, n) == if 1 <= n <= |texts| then Some(n - 1) else None
  {
    var options := NumberedOptions(texts);
    SumOfZeros(options, VotesOf);
    PositionalFind(options, OptionIdOf, n);
  }

  /** A poll created from the form brings no votes: the store's total is what it was. */
  lemma NewPollAddsNoVotes(polls: seq<Poll>, question: string, texts: seq<string>, createdBy: int)
    ensures TotalVotes(polls + [Poll(|polls| + 1, question, NumberedOptions(texts), createdBy)]) == TotalVotes(polls)
  {
    var options := NumberedOptions(texts);
    AppendPollTotal(polls, Poll(|polls| + 1, question, options, createdBy));
    SumOfZeros(options, VotesOf);
  }

  /**
   * `signup`: both fields must be given, and no stored user may have the
   * email; then the user is stored with the password exactly as typed and
   * the browser is sent to the login page.
   */
  method Signup(store: Store, form: Credentials) returns (outcome: Outcome)
    modifies store
    ensures
      if !Filled(form.email) || !Filled(form.password) then
        outcome == Failed(CredentialsRequired) && unchanged(store)
      else if !NoMatch(old(store.users), EmailOf, form.email.value) then
        outcome == Failed(UserExists) && unchanged(store)
      else
        outcome == Redirected(LoginPage) &&
        store.users == old(store.users) + [User(|old(store.users)| + 1, form.email.value, form.password)] &&
        store.polls == old(store.polls) && store.writes == old(store.writes) + 1
    ensures old(store.Valid()) ==> store.Valid()
  {
    if !Filled(form.email) || !Filled(form.password) {
      return Failed(CredentialsRequired);
    }
    var email, password := form.email.value, form.password.value;
    var existing := store.FindUserByEmail(email);
    if existing.Some? {
      return Failed(UserExists);
    }
    var _ := store.AddUser(email, Some(password));
    return Redirected(LoginPage);
  }

  /**
   * `login`: both fields must be given; the first user with the email must
   * exist and its stored password must equal the one typed. On success the
   * session holds that user's id and email; otherwise it is left as it was.
   */
  method Login(store: Store, form: Credentials, session: Option<SessionUser>)
    returns (outcome: Outcome, newSession: Option<SessionUser>)
    ensures
      if !Filled(form.email) || !Filled(form.password) then
        outcome == Failed(CredentialsRequired) && newSession == session
      else if exists i :: FirstMatch(store.users, EmailOf, form.email.value, i) && store.users[i].password == form.password then
        outcome == Redirected(PollsPage) &&
        exists i :: FirstMatch(store.users, EmailOf, form.email.value, i) &&
                    newSession == Some(SessionUser(store.users[i].id, store.users[i].email))
      else
        outcome == Failed(InvalidCredentials) && newSession == session
  {
    if !Filled(form.email) || !Filled(form.password) {
      return Failed(CredentialsRequired), session;
    }
    var email, password := form.email.value, form.password.value;
    var user := store.FindUserByEmail(email);
    if user.None? || user.value.password != Some(password) {
      return Failed(InvalidCredentials), session;
    }
    return Redirected(PollsPage), Some(SessionUser(user.value.id, user.value.email));
  }

  /** `logout`: the session cookie is deleted and the browser sent to the login page. */
  method Logout(session: Option<SessionUser>) returns (outcome: Outcome, newSession: Option<SessionUser>)
    ensures outcome == Redirected(LoginPage) && newSession.None?
  {
    return Redirected(LoginPage), None;
  }

  /**
   * `createPoll`: the question must be given and at least two options must
   * survive trimming, checked before the session is looked at; without a
   * session the browser goes to the login page; otherwise one poll is
   * stored, numbered one past the current count, with the kept options
   * numbered 1..n and no votes, made by the session's user, and the browser
   * goes to that poll's page.
   */
  method CreatePoll(store: Store, form: PollForm, session: Option<SessionUser>) returns (outcome: Outcome)
    modifies store
    ensures
      var kept := NonBlankOptions(form.options);
      if !Filled(form.question) || |kept| < 2 then
        outcome == Failed(PollFormIncomplete) && unchanged(store)
      else if session.None? then
        outcome == Redirected(LoginPage) && unchanged(store)
      else
        var id := |old(store.polls)| + 1;
        outcome == Redirected(PollPage(id)) &&
        store.polls == old(store.polls) + [Poll(id, form.question.value, NumberedOptions(kept), session.value.id)] &&
        store.users == old(store.users) && store.writes == old(store.writes) + 1
    ensures VotesKept(old(store.polls), store.polls)
    ensures old(store.Valid()) ==> store.Valid()
  {
    var options := NonBlankOptions(form.options);
    if !Filled(form.question) || |options| < 2 {
      VotesKeptReflexive(store.polls);
      return Failed(PollFormIncomplete);
    }
    if session.None? {
      VotesKeptReflexive(store.polls);
      return Redirected(LoginPage);
    }
    NumberedOptionsReady(options, 1);
    var poll := store.CreatePoll(form.question.value, NumberedOptions(options), session.value.id);
    return Redirected(PollPage(poll.id));
  }

  /** `submitVote`: casts the vote through the store, then revalidates the poll's page whatever happened. */
  method SubmitVote(store: Store, pollId: int, optionId: int) returns (outcome: Outcome)
    modifies store
    ensures outcome == Revalidated(PollPage(pollId))
    ensures store.users == old(store.users)
    ensures store.polls == Voted(old(store.polls), pollId, optionId)
    ensures store.writes == old(store.writes) + if VoteTarget(old(store.polls), pollId, optionId).Some? then 1 else 0
    ensures VotesKept(old(store.polls), store.polls)
    ensures old(store.Valid()) ==> store.Valid()
  {
    var _ := store.VoteOnPoll(pollId, optionId);
    return Revalidated(PollPage(pollId));
  }
}
