/**
 * The voting page of one proposal: the component state (`proposal`,
 * `votePoints`, `remainingVotes`, `error`), the handling of the proposal
 * fetch, the vote handler with its two local guards, and the gating of the
 * voting form by that state.
 *
 * The proposal store is not modelled; what it answers is a parameter
 * (`FetchOutcome`, `CommitOutcome`), and the one write the page asks of it
 * is returned as an `Increment`.
 */
module Vote {
  import opened Wrappers

  /** The voting allowance a session starts with. */
  const InitialBudget: int := 1000

  const NotFoundMessage := "Proposal not found."
  const InvalidAmountMessage := "Please enter a valid number of vote points."
  const NotEnoughMessage := "Not enough vote points available."

  function FetchErrorMessage(cause: string): string {
    "Error fetching proposal: " + cause
  }

  function CommitErrorMessage(cause: string): string {
    "Error casting vote: " + cause
  }

  /** The three tally fields of a proposal document. */
  datatype VoteOption = Yes | No | Blank

  datatype Tally = Tally(yes: int, no: int, blank: int)

  function Count(t: Tally, option: VoteOption): int {
    match option
    case Yes => t.yes
    case No => t.no
    case Blank => t.blank
  }

  datatype Proposal = Proposal(title: string, votes: Tally)

  /** What the store answers to the read of the proposal document. */
  datatype FetchOutcome = Found(proposal: Proposal) | NotFound | FetchFailed(cause: string)

  /** What the store answers to the increment request. */
  datatype CommitOutcome = Committed | CommitFailed(cause: string)

  /** The store write `votes.<option>: increment(amount)` on the proposal document `doc`. */
  datatype Increment = Increment(doc: string, option: VoteOption, amount: int)

  /** The stored tally after the store has applied an increment. */
  function Apply(t: Tally, inc: Increment): (r: Tally)
    ensures Count(r, inc.option) == Count(t, inc.option) + inc.amount
    ensures forall o :: o != inc.option ==> Count(r, o) == Count(t, o)
  {
    match inc.option
    case Yes => t.(yes := t.yes + inc.amount)
    case No => t.(no := t.no + inc.amount)
    case Blank => t.(blank := t.blank + inc.amount)
  }

  /** Increments from different sessions give the same tally in either order. */
  lemma IncrementsCommute(t: Tally, a: Increment, b: Increment)
    ensures Apply(Apply(t, a), b) == Apply(Apply(t, b), a)
  {
  }

  /** The outcome of the two local guards of the vote handler. */
  datatype Verdict = Accept | InvalidAmount | NotEnough

  /** The guards in the order the handler runs them: positivity, then the budget. */
  function Check(points: int, remaining: int): (v: Verdict)
    ensures v == Accept <==> 0 < points <= remaining
    ensures v == InvalidAmount <==> points <= 0
    ensures v == NotEnough <==> 0 < points && remaining < points
  {
    if points <= 0 then InvalidAmount
    else if points > remaining then NotEnough
    else Accept
  }

  /** The total of a sequence of amounts. */
  function Sum(amounts: seq<int>): int {
    if amounts == [] then 0 else Sum(amounts[..|amounts| - 1]) + amounts[|amounts| - 1]
  }

  class VoteSession {
    /** The proposal id taken from the route. */
    const id: string
    var proposal: Option<Proposal>
    var votePoints: int
    var remainingVotes: int
    var error: string
    /** The amounts the store has confirmed, in order. */
    ghost var committed: seq<int>

    /**
     * The budget invariant: the remaining allowance is the initial one less
     * every confirmed amount, every confirmed amount is positive, and the
     * allowance never goes negative.
     */
    ghost predicate Valid()
      reads this
    {
      && remainingVotes == InitialBudget - Sum(committed)
      && 0 <= remainingVotes
      && forall k :: 0 <= k < |committed| ==> committed[k] > 0
    }

    /** The voting form is shown only with no error and a loaded proposal. */
    predicate FormVisible()
      reads this
    {
      error == "" && proposal.Some?
    }

    constructor (id: string)
      ensures Valid()
      ensures this.id == id && proposal == None && votePoints == 0
      ensures remainingVotes == InitialBudget && error == "" && committed == []
    {
      this.id := id;
      proposal := None;
      votePoints := 0;
      remainingVotes := InitialBudget;
      error := "";
      committed := [];
    }

    /** Applies the store's answer to the read of proposal `id`. */
    method FetchProposal(outcome: FetchOutcome)
      requires Valid()
      modifies this
      ensures Valid()
      ensures votePoints == old(votePoints) && remainingVotes == old(remainingVotes)
      ensures committed == old(committed)
      ensures outcome.Found? ==> proposal == Some(outcome.proposal) && error == old(error)
      ensures outcome.NotFound? ==> proposal == old(proposal) && error == NotFoundMessage
      ensures outcome.FetchFailed? ==>
        proposal == old(proposal) && error == FetchErrorMessage(outcome.cause)
      ensures old(error) != "" ==> error != "" && !FormVisible()
      ensures !outcome.Found? ==> !FormVisible()
    {
      match outcome
      case Found(p) =>
        proposal := Some(p);
      case NotFound =>
        error := NotFoundMessage;
      case FetchFailed(cause) =>
        error := FetchErrorMessage(cause);
    }

    /**
     * The amount field's change handler, given what `parseInt` made of the
     * entry (None for NaN): `parseInt(value) || 0`.
     */
    method SetVotePoints(parsed: Option<int>)
      requires Valid()
      modifies this`votePoints
      ensures Valid()
      ensures parsed.None? ==> votePoints == 0
      ensures parsed.Some? ==> votePoints == parsed.value
    {
      votePoints := match parsed
        case None => 0
        case Some(n) => n;
    }

    /** What the vote handler does, given what the store answers to its request. */
    twostate predicate VoteHandled(option: VoteOption, commit: CommitOutcome,
                                   new request: Option<Increment>)
      reads this
    {
      var points, budget := old(votePoints), old(remainingVotes);
      && proposal == old(proposal)
      && match Check(points, budget)
        case InvalidAmount =>
          && request == None && error == InvalidAmountMessage
          && votePoints == points && remainingVotes == budget && committed == old(committed)
        case NotEnough =>
          && request == None && error == NotEnoughMessage
          && votePoints == points && remainingVotes == budget && committed == old(committed)
        case Accept =>
          && request == Some(Increment(id, option, points))
          && match commit
            case Committed =>
              && remainingVotes == budget - points && votePoints == 0 && error == ""
              && committed == old(committed) + [points]
            case CommitFailed(cause) =>
              && error == CommitErrorMessage(cause)
              && votePoints == points && remainingVotes == budget && committed == old(committed)
    }

    /**
     * The vote handler for `option`. `request` is the increment sent to the
     * store (None when the guards stop the vote before any store call);
     * `commit` is the store's answer to it.
     */
    method HandleVote(option: VoteOption, commit: CommitOutcome) returns (request: Option<Increment>)
      requires Valid()
      modifies this
      ensures Valid()
      ensures VoteHandled(option, commit, request)
      ensures request.Some? ==> 0 < request.value.amount <= old(remainingVotes)
      ensures remainingVotes <= old(remainingVotes)
    {
      if votePoints <= 0 {
        error := InvalidAmountMessage;
        return None;
      }
      if votePoints > remainingVotes {
        error := NotEnoughMessage;
        return None;
      }
      request := Some(Increment(id, option, votePoints));
      match commit
      case Committed =>
        assert Sum(committed + [votePoints]) == Sum(committed) + votePoints by {
          assert (committed + [votePoints])[..|committed|] == committed;
        }
        committed := committed + [votePoints];
        remainingVotes := remainingVotes - votePoints;
        votePoints := 0;
        error := "";
      case CommitFailed(cause) =>
        error := CommitErrorMessage(cause);
    }

    /**
     * A press of one of the three vote buttons. The buttons exist only while
     * the form is shown; otherwise nothing happens and no store call is made.
     */
    method PressVoteButton(option: VoteOption, commit: CommitOutcome) returns (request: Option<Increment>)
      requires Valid()
      modifies this
      ensures Valid()
      ensures !old(FormVisible()) ==> request == None && unchanged(this)
      ensures old(FormVisible()) ==> VoteHandled(option, commit, request)
    {
      if FormVisible() {
        request := HandleVote(option, commit);
      } else {
        request := None;
      }
    }
  }

  /**
   * A session seen by its user: a committed vote of 200 points, an amount
   * over the remaining budget, after which the error hides the form, and a
   * session whose proposal is missing.
   */
  method SessionWalkthrough(p: Proposal)
  {
    var session := new VoteSession("p");
    session.FetchProposal(Found(p));
    session.SetVotePoints(Some(200));
    var request := session.PressVoteButton(Yes, Committed);
    assert request == Some(Increment("p", Yes, 200));
    assert session.remainingVotes == 800 && session.votePoints == 0 && session.FormVisible();

    session.SetVotePoints(Some(900));
    request := session.PressVoteButton(No, Committed);
    assert request == None && session.error == NotEnoughMessage;
    assert session.remainingVotes == 800 && !session.FormVisible();

    session.SetVotePoints(Some(100));
    request := session.PressVoteButton(No, Committed);
    assert request == None && session.remainingVotes == 800;

    var missing := new VoteSession("missing-id");
    missing.FetchProposal(NotFound);
    missing.SetVotePoints(Some(10));
    request := missing.PressVoteButton(Blank, Committed);
    assert request == None && missing.error == NotFoundMessage;
    assert missing.remainingVotes == InitialBudget && missing.proposal == None;
  }
}
