/**
 * Client-side runs of the store and the actions, stated as contracts: the
 * situations app/lib/db.test.ts and app/lib/actions.test.ts describe, and
 * the sign-up, log-in, create and vote sequence a user goes through.
 */
module Scenarios {
  import opened Wrappers
  import opened Collections
  import opened Text
  import opened Db
  import opened Actions

  /** Of "Red" and the empty string only "Red" is kept. */
  lemma OnlyRedKept()
    ensures NonBlankOptions(["Red", ""]) == ["Red"]
  {
    assert !IsWhitespace("Red"[0]);
    assert ["Red", ""][1..] == [""];
    BlankOptionDropped("");
  }

  /** Two options that are not blank are both kept, in form order. */
  lemma TwoOptionsKept(a: string, b: string)
    requires !IsBlank(a) && !IsBlank(b)
    ensures NonBlankOptions([a, b]) == [a, b]
  {
    assert [a, b][1..] == [b];
    assert [b][1..] == [];
  }

  /** Two kept options become options 1 and 2 with no votes. */
  lemma TwoOptionsNumbered(a: string, b: string)
    ensures NumberedOptions([a, b]) == [PollOption(1, a, 0), PollOption(2, b, 0)]
  {
  }

  /** In a store holding only a poll 1 with options 1 and 2, a vote for option 1 lands on the first option. */
  lemma FirstVoteForOptionOne(poll: Poll)
    requires poll.id == 1 && |poll.options| == 2
    requires poll.options[0].id == 1 && poll.options[1].id == 2
    ensures var after := Voted([poll], 1, 1);
            |after| == 1 && |after[0].options| == 2 &&
            after[0].options[0].votes == poll.options[0].votes + 1 &&
            after[0].options[1] == poll.options[1]
  {
    PositionalVoteTarget([poll], 1, 1);
  }

  /** A logged-in user creates a poll with a question and two options: it is stored as the next poll. */
  method CreateTwoOptionPoll(store: Store, question: string, a: string, b: string, user: SessionUser)
    returns (created: Outcome)
    modifies store
    requires question != "" && !IsBlank(a) && !IsBlank(b)
    ensures created == Redirected(PollPage(|old(store.polls)| + 1))
    ensures store.polls ==
              old(store.polls) + [Poll(|old(store.polls)| + 1, question, [PollOption(1, a, 0), PollOption(2, b, 0)], user.id)]
  {
    TwoOptionsKept(a, b);
    TwoOptionsNumbered(a, b);
    created := CreatePoll(store, PollForm(Some(question), [a, b]), Some(user));
  }

  /**
   * A poll with a question and two options, created by a logged-in user on
   * an empty store, is poll 1 with options 1 and 2 and no votes; one vote
   * for option 1 gives the tallies 1 and 0.
   */
  method CreateThenVote(question: string, a: string, b: string, user: SessionUser)
    returns (created: Outcome, options: seq<PollOption>, voted: Outcome, tallies: seq<int>)
    requires question != "" && !IsBlank(a) && !IsBlank(b)
    ensures created == Redirected(PollPage(1))
    ensures options == [PollOption(1, a, 0), PollOption(2, b, 0)]
    ensures voted == Revalidated(PollPage(1))
    ensures tallies == [1, 0]
  {
    var store := new Store.Empty();
    created := CreateTwoOptionPoll(store, question, a, b, user);
    var poll := store.polls[0];
    assert store.polls == [poll];
    options := poll.options;
    FirstVoteForOptionOne(poll);
    voted := SubmitVote(store, 1, 1);
    tallies := [store.polls[0].options[0].votes, store.polls[0].options[1].votes];
  }

  /** "Favorite color?" with Red and Blue: options 1 and 2; after one vote for Red the tallies are 1 and 0. */
  method FavoriteColor() returns (created: Outcome, options: seq<PollOption>, voted: Outcome, tallies: seq<int>)
    ensures created == Redirected(PollPage(1))
    ensures options == [PollOption(1, "Red", 0), PollOption(2, "Blue", 0)]
    ensures voted == Revalidated(PollPage(1))
    ensures tallies == [1, 0]
  {
    assert !IsWhitespace("Red"[0]) && !IsWhitespace("Blue"[0]);
    created, options, voted, tallies := CreateThenVote("Favorite color?", "Red", "Blue", SessionUser(1, "voter@example.com"));
  }

  /**
   * A form with question and the options Red and an empty one keeps one
   * option only and is refused, as is a form with no question; neither
   * touches the store.
   */
  method IncompletePollForms(store: Store, session: Option<SessionUser>) returns (blankOption: Outcome, noQuestion: Outcome)
    modifies store
    ensures blankOption == Failed(PollFormIncomplete) && noQuestion == Failed(PollFormIncomplete)
    ensures unchanged(store)
  {
    OnlyRedKept();
    blankOption := CreatePoll(store, PollForm(Some("What is your favorite color?"), ["Red", ""]), session);
    noQuestion := CreatePoll(store, PollForm(None, ["Red", "Blue"]), session);
  }

  /** Signing up twice with the same given email: the second attempt is refused and adds nobody. */
  method SignupTwice(store: Store, form: Credentials) returns (first: Outcome, second: Outcome)
    modifies store
    requires Filled(form.email) && Filled(form.password)
    ensures second == Failed(UserExists)
    ensures |store.users| <= |old(store.users)| + 1
  {
    first := Signup(store, form);
    assert !NoMatch(store.users, EmailOf, form.email.value) by {
      if first == Redirected(LoginPage) {
        assert EmailOf(store.users[|store.users| - 1]) == form.email.value;
      }
    }
    second := Signup(store, form);
  }

  /**
   * Signing up with a new email and then logging in with the same fields
   * succeeds, and the session holds the new user's id and email.
   */
  method SignupThenLogin(store: Store, form: Credentials)
    returns (signedUp: Outcome, loggedIn: Outcome, session: Option<SessionUser>)
    modifies store
    requires Filled(form.email) && Filled(form.password)
    requires NoMatch(store.users, EmailOf, form.email.value)
    ensures signedUp == Redirected(LoginPage) && loggedIn == Redirected(PollsPage)
    ensures session == Some(SessionUser(|old(store.users)| + 1, form.email.value))
  {
    signedUp := Signup(store, form);
    var n := |old(store.users)|;
    assert FirstMatch(store.users, EmailOf, form.email.value, n);
    loggedIn, session := Login(store, form, None);
    assert exists i :: FirstMatch(store.users, EmailOf, form.email.value, i) by {
      assert FirstMatch(store.users, EmailOf, form.email.value, n);
    }
  }

  /**
   * On a store holding only poll 1 with only option 1: votes for poll 999 and
   * for option 999 return nothing and write nothing; a vote for option 1 of
   * poll 1 returns the poll with that counter one higher, and only it writes.
   */
  method VotesOnSinglePoll(store: Store, poll: Poll)
    returns (unknownPoll: Option<Poll>, unknownOption: Option<Poll>, counted: Option<Poll>)
    modifies store
    requires poll.id == 1 && |poll.options| == 1 && poll.options[0].id == 1
    requires store.polls == [poll]
    ensures unknownPoll.None? && unknownOption.None?
    ensures var o := poll.options[0];
            counted == Some(poll.(options := [o.(votes := o.votes + 1)])) && store.polls == [counted.value]
    ensures store.users == old(store.users) && store.writes == old(store.writes) + 1
  {
    PositionalVoteTarget([poll], 999, 1);
    PositionalVoteTarget([poll], 1, 999);
    PositionalVoteTarget([poll], 1, 1);
    unknownPoll := store.VoteOnPoll(999, 1);
    unknownOption := store.VoteOnPoll(1, 999);
    counted := store.VoteOnPoll(1, 1);
    var after := WithVote([poll], 0, 0);
    assert store.polls == after;
    assert after[0].options == [poll.options[0].(votes := poll.options[0].votes + 1)];
  }

  /**
   * The stored data of db.test.ts: a vote for an unknown poll or for an
   * unknown option of poll 1 returns nothing and writes nothing; a vote for
   * option 1 of poll 1 returns that poll with one vote, and only that vote
   * writes.
   */
  method FixtureVotes(store: Store) returns (unknownPoll: Option<Poll>, unknownOption: Option<Poll>, counted: Option<Poll>)
    modifies store
    requires store.users == [User(1, "test1@example.com", Some("pass1")), User(2, "test2@example.com", Some("pass2"))]
    requires store.polls == [Poll(1, "Q1", [PollOption(1, "O1", 0)], 1)]
    ensures unknownPoll.None? && unknownOption.None?
    ensures counted == Some(Poll(1, "Q1", [PollOption(1, "O1", 1)], 1))
    ensures store.users == old(store.users)
    ensures store.polls == [Poll(1, "Q1", [PollOption(1, "O1", 1)], 1)]
    ensures store.writes == old(store.writes) + 1
  {
    unknownPoll, unknownOption, counted := VotesOnSinglePoll(store, store.polls[0]);
  }
}
