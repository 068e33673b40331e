/**
 * The record store of app/lib/db.ts: two ordered collections, `users` and
 * `polls`, loaded and saved as a whole. Each operation of the source reads
 * the whole state, works on it, and (when it changes something) writes the
 * whole state back; here the state is the fields of a `Store` object, and a
 * ghost counter records how many times it was written back.
 */
module Db {
  import opened Wrappers
  import opened Collections

  /** A user record; `password` is optional in the stored schema and is kept as given. */
  datatype User = User(id: int, email: string, password: Option<string>)

  /** One answer of a poll with its vote counter. */
  datatype PollOption = PollOption(id: int, text: string, votes: int)

  datatype Poll = Poll(id: int, question: string, options: seq<PollOption>, createdBy: int)

  function UserIdOf(u: User): int { u.id }
  function EmailOf(u: User): string { u.email }
  function PollIdOf(p: Poll): int { p.id }
  function OptionIdOf(o: PollOption): int { o.id }
  function VotesOf(o: PollOption): int { o.votes }

  /** All votes cast in one poll. */
  function PollVotes(p: Poll): int { Sum(p.options, VotesOf) }

  /** All votes cast in the whole store. */
  function TotalVotes(polls: seq<Poll>): int { Sum(polls, PollVotes) }

  /**
   * The options of a poll as the application creates them: at least two,
   * numbered 1, 2, ... in order, with counters that are not negative.
   */
  predicate WellFormedOptions(options: seq<PollOption>)
  {
    |options| >= 2 && IdsArePositions(options, OptionIdOf) &&
    forall k :: 0 <= k < |options| ==> options[k].votes >= 0
  }

  /**
   * Vote counters never go down: every poll of `before` is still in `after`
   * at the same position with as many options, and no counter is smaller.
   */
  predicate VotesKept(before: seq<Poll>, after: seq<Poll>)
  {
    |before| <= |after| &&
    forall i :: 0 <= i < |before| ==>
      |before[i].options| == |after[i].options| &&
      forall k :: 0 <= k < |before[i].options| ==>
        before[i].options[k].votes <= after[i].options[k].votes
  }

  lemma VotesKeptReflexive(polls: seq<Poll>)
    ensures VotesKept(polls, polls)
  {
  }

  lemma VotesKeptTransitive(a: seq<Poll>, b: seq<Poll>, c: seq<Poll>)
    requires VotesKept(a, b) && VotesKept(b, c)
    ensures VotesKept(a, c)
  {
  }

  /** Appending a new poll changes no existing counter. */
  lemma AppendKeepsVotes(polls: seq<Poll>, p: Poll)
    ensures VotesKept(polls, polls + [p])
  {
    assert forall i :: 0 <= i < |polls| ==> (polls + [p])[i] == polls[i];
  }

  /** Position of a poll and of an option inside it: where a vote lands. */
  datatype Slot = Slot(poll: nat, option: nat)

  /**
   * Where a vote for `optionId` in poll `pollId` lands: the first poll with
   * that id, then the first option with that id inside it. There is no slot
   * when no poll has the id, or when the first such poll has no such option.
   */
  function VoteTarget(polls: seq<Poll>, pollId: int, optionId: int): (r: Option<Slot>)
    ensures r.Some? ==>
              FirstMatch(polls, PollIdOf, pollId, r.value.poll) &&
              FirstMatch(polls[r.value.poll].options, OptionIdOf, optionId, r.value.option)
    ensures r.None? ==>
              NoMatch(polls, PollIdOf, pollId) ||
              exists i :: FirstMatch(polls, PollIdOf, pollId, i) && NoMatch(polls[i].options, OptionIdOf, optionId)
  {
    match FindIndex(polls, PollIdOf, pollId)
    case None => None
    case Some(i) =>
      match FindIndex(polls[i].options, OptionIdOf, optionId)
      case None => None
      case Some(k) => Some(Slot(i, k))
  }

  /**
   * When poll ids and option ids are positions plus one, a vote lands on
   * poll `pollId - 1` and its option `optionId - 1`, exactly when both are in range.
   */
  lemma {:induction false} PositionalVoteTarget(polls: seq<Poll>, pollId: int, optionId: int)
    requires IdsArePositions(polls, PollIdOf)
    requires forall i :: 0 <= i < |polls| ==> IdsArePositions(polls[i].options, OptionIdOf)
    ensures VoteTarget(polls, pollId, optionId) ==
              if 1 <= pollId <= |polls| && 1 <= optionId <= |polls[pollId - 1].options|
              then Some(Slot(pollId - 1, optionId - 1))
              else None
  {
    PositionalFind(polls, PollIdOf, pollId);
    if 1 <= pollId <= |polls| {
      PositionalFind(polls[pollId - 1].options, OptionIdOf, optionId);
    }
  }

  /**
   * The polls after one vote for option `k` of poll `i`: that counter is one
   * higher, and nothing else differs, not the other counters, not any id or
   * text, not any other poll.
   */
  function WithVote(polls: seq<Poll>, i: nat, k: nat): (r: seq<Poll>)
    requires i < |polls| && k < |polls[i].options|
    ensures |r| == |polls|
    ensures forall j :: 0 <= j < |polls| && j != i ==> r[j] == polls[j]
    ensures r[i].id == polls[i].id && r[i].question == polls[i].question && r[i].createdBy == polls[i].createdBy
    ensures |r[i].options| == |polls[i].options|
    ensures forall m :: 0 <= m < |polls[i].options| && m != k ==> r[i].options[m] == polls[i].options[m]
    ensures r[i].options[k].id == polls[i].options[k].id && r[i].options[k].text == polls[i].options[k].text
    ensures r[i].options[k].votes == polls[i].options[k].votes + 1
  {
    var p := polls[i];
    var o := p.options[k];
    polls[i := p.(options := p.options[k := o.(votes := o.votes + 1)])]
  }

  /** One vote adds exactly one to the total number of votes in the store. */
  lemma WithVoteAddsOne(polls: seq<Poll>, i: nat, k: nat)
    requires i < |polls| && k < |polls[i].options|
    ensures TotalVotes(WithVote(polls, i, k)) == TotalVotes(polls) + 1
  {
    var p := polls[i];
    var o := p.options[k];
    var p' := p.(options := p.options[k := o.(votes := o.votes + 1)]);
    SumUpdate(p.options, VotesOf, k, o.(votes := o.votes + 1));
    assert PollVotes(p') == PollVotes(p) + 1;
    SumUpdate(polls, PollVotes, i, p');
  }

  /**
   * The state `voteOnPoll` leaves: one more vote at the target slot, or no
   * change. The polls change exactly when the vote finds its slot.
   */
  function Voted(polls: seq<Poll>, pollId: int, optionId: int): (r: seq<Poll>)
    ensures |r| == |polls|
    ensures r == polls <==> VoteTarget(polls, pollId, optionId).None?
  {
    match VoteTarget(polls, pollId, optionId)
    case None => polls
    case Some(s) => WithVote(polls, s.poll, s.option)
  }

  /** A poll appended to the store brings its own votes into the total, and no others. */
  lemma AppendPollTotal(polls: seq<Poll>, p: Poll)
    ensures TotalVotes(polls + [p]) == TotalVotes(polls) + PollVotes(p)
  {
    SumAppend(polls, [p], PollVotes);
    assert [p][1..] == [];
  }

  /** A vote that finds its slot adds exactly one vote in all; one that does not changes nothing. */
  lemma VotedCountsOnce(polls: seq<Poll>, pollId: int, optionId: int)
    ensures VoteTarget(polls, pollId, optionId).None? ==> Voted(polls, pollId, optionId) == polls
    ensures TotalVotes(Voted(polls, pollId, optionId)) ==
              TotalVotes(polls) + if VoteTarget(polls, pollId, optionId).Some? then 1 else 0
  {
    match VoteTarget(polls, pollId, optionId)
    case None =>
    case Some(s) => WithVoteAddsOne(polls, s.poll, s.option);
  }

  /** Voting never lowers a counter. */
  lemma VotedKeepsVotes(polls: seq<Poll>, pollId: int, optionId: int)
    ensures VotesKept(polls, Voted(polls, pollId, optionId))
  {
  }

  /** Voting keeps every poll's options well formed and leaves the poll ids alone. */
  lemma VotedKeepsShape(polls: seq<Poll>, pollId: int, optionId: int)
    requires forall i :: 0 <= i < |polls| ==> WellFormedOptions(polls[i].options)
    ensures IdsArePositions(polls, PollIdOf) ==> IdsArePositions(Voted(polls, pollId, optionId), PollIdOf)
    ensures var after := Voted(polls, pollId, optionId);
            forall i :: 0 <= i < |after| ==> WellFormedOptions(after[i].options)
  {
    match VoteTarget(polls, pollId, optionId)
    case None =>
    case Some(s) =>
      var after := WithVote(polls, s.poll, s.option);
      var before := polls[s.poll].options;
      var opts := after[s.poll].options;
      assert forall m :: 0 <= m < |opts| ==> opts[m].id == before[m].id && opts[m].votes >= before[m].votes;
  }

  /**
   * The persisted state: `users` and `polls` as the JSON document holds them.
   * `writes` counts how many times the whole state was saved.
   */
  class Store {
    var users: seq<User>
    var polls: seq<Poll>
    ghost var writes: nat

    /**
     * The invariant the application's own writes keep: ids are positions
     * plus one (so they are unique), and every poll's options are well formed.
     */
    ghost predicate Valid()
      reads this
    {
      IdsArePositions(users, UserIdOf) && IdsArePositions(polls, PollIdOf) &&
      forall i :: 0 <= i < |polls| ==> WellFormedOptions(polls[i].options)
    }

    /** The state `readDb` falls back to when there is no file: no users and no polls. */
    constructor Empty()
      ensures users == [] && polls == [] && writes == 0
      ensures Valid()
    {
      users, polls := [], [];
      writes := 0;
    }

    /** The state `readDb` parses from an existing file. */
    constructor Load(users: seq<User>, polls: seq<Poll>)
      ensures this.users == users && this.polls == polls && writes == 0
    {
      this.users, this.polls := users, polls;
      writes := 0;
    }

    function GetUsers(): seq<User>
      reads this
    {
      users
    }

    function GetPolls(): seq<Poll>
      reads this
    {
      polls
    }

    /** The first user whose email is exactly `email` (case-sensitive), or none. */
    function FindUserByEmail(email: string): (r: Option<User>)
      reads this
      ensures r.None? <==> NoMatch(users, EmailOf, email)
      ensures r.Some? ==> exists i :: FirstMatch(users, EmailOf, email, i) && r.value == users[i]
    {
      match FindIndex(users, EmailOf, email)
      case None => None
      case Some(i) => Some(users[i])
    }

    /** The first poll whose id is `id`, or none. */
    function GetPollById(id: int): (r: Option<Poll>)
      reads this
      ensures r.None? <==> NoMatch(polls, PollIdOf, id)
      ensures r.Some? ==> exists i :: FirstMatch(polls, PollIdOf, id, i) && r.value == polls[i]
    {
      match FindIndex(polls, PollIdOf, id)
      case None => None
      case Some(i) => Some(polls[i])
    }

    /**
     * Appends a user numbered one past the current count; does not look for
     * an existing user with the same email.
     */
    method AddUser(email: string, password: Option<string>) returns (u: User)
      modifies this
      ensures u == User(|old(users)| + 1, email, password)
      ensures users == old(users) + [u] && polls == old(polls)
      ensures writes == old(writes) + 1
      ensures old(Valid()) ==> Valid()
    {
      u := User(|users| + 1, email, password);
      users := users + [u];
      writes := writes + 1;
    }

    /** Appends a poll numbered one past the current count, with its fields as given. */
    method CreatePoll(question: string, options: seq<PollOption>, createdBy: int) returns (p: Poll)
      modifies this
      ensures p == Poll(|old(polls)| + 1, question, options, createdBy)
      ensures polls == old(polls) + [p] && users == old(users)
      ensures writes == old(writes) + 1
      ensures VotesKept(old(polls), polls)
      ensures old(Valid()) && WellFormedOptions(options) ==> Valid()
    {
      p := Poll(|polls| + 1, question, options, createdBy);
      AppendKeepsVotes(polls, p);
      polls := polls + [p];
      writes := writes + 1;
    }

    /**
     * Finds the poll, then the option inside it, and raises that option's
     * counter by one; the updated poll is returned and the state written.
     * When either lookup fails nothing changes and nothing is written.
     */
    method VoteOnPoll(pollId: int, optionId: int) returns (r: Option<Poll>)
      modifies this
      ensures users == old(users)
      ensures polls == Voted(old(polls), pollId, optionId)
      ensures r.Some? <==> VoteTarget(old(polls), pollId, optionId).Some?
      ensures r.Some? ==> r.value == polls[VoteTarget(old(polls), pollId, optionId).value.poll]
      ensures writes == old(writes) + if r.Some? then 1 else 0
      ensures VotesKept(old(polls), polls)
      ensures old(Valid()) ==> Valid()
    {
      VotedKeepsVotes(polls, pollId, optionId);
      if Valid() {
        VotedKeepsShape(polls, pollId, optionId);
      }
      var found := FindIndex(polls, PollIdOf, pollId);
      if found.Some? {
        var i := found.value;
        var option := FindIndex(polls[i].options, OptionIdOf, optionId);
        if option.Some? {
          polls := WithVote(polls, i, option.value);
          writes := writes + 1;
          return Some(polls[i]);
        }
      }
      return None;
    }
  }

  /** In a valid store, `getPollById(n)` finds a poll exactly when 1 <= n <= count, and it is the n-th. */
  lemma ValidPollLookup(store: Store, n: int)
    requires store.Valid()
    ensures store.GetPollById(n).Some? <==> 1 <= n <= |store.polls|
    ensures store.GetPollById(n).Some? ==> store.GetPollById(n).value == store.polls[n - 1]
  {
    PositionalFind(store.polls, PollIdOf, n);
  }

  /** In a valid store, a vote lands exactly when both numbers are in range, on poll `pollId` and option `optionId`. */
  lemma ValidVoteTarget(store: Store, pollId: int, optionId: int)
    requires store.Valid()
    ensures VoteTarget(store.polls, pollId, optionId) ==
              if 1 <= pollId <= |store.polls| && 1 <= optionId <= |store.polls[pollId - 1].options|
              then Some(Slot(pollId - 1, optionId - 1))
              else None
  {
    PositionalVoteTarget(store.polls, pollId, optionId);
  }
}
