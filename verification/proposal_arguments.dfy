/**
 * The argument list shown under a proposal: at most five arguments of at
 * most fifty words each, every one with a thumbs-up and a thumbs-down
 * counter and a displayed net score.
 */
module ProposalArguments {
  import opened WordCounting

  const MaxWords := 50
  const MaxArguments := 5

  datatype Argument = Argument(text: string, up: int, down: int)

  /** The net score displayed beside an argument. */
  function NetScore(a: Argument): int {
    a.up - a.down
  }

  /** How a submission ends; the two rejections are shown as alerts. */
  datatype SubmitOutcome = Added | TooManyWords | ListFull

  /** The submission guards in the order the handler runs them: word count, then list length. */
  function Admission(input: string, count: nat): (r: SubmitOutcome)
    ensures r == TooManyWords <==> Words(input) > MaxWords
    ensures r == ListFull <==> Words(input) <= MaxWords && count >= MaxArguments
    ensures r == Added <==> Words(input) <= MaxWords && count < MaxArguments
  {
    WordCountIsWords(input);
    if WordCount(input) > MaxWords then TooManyWords
    else if count >= MaxArguments then ListFull
    else Added
  }

  /** `list` with the counter `up` of entry `index` raised by one. */
  function Upvoted(list: seq<Argument>, index: nat): (r: seq<Argument>)
    requires index < |list|
    ensures |r| == |list|
    ensures r[index] == list[index].(up := list[index].up + 1)
    ensures NetScore(r[index]) == NetScore(list[index]) + 1
    ensures forall j :: 0 <= j < |list| && j != index ==> r[j] == list[j]
  {
    list[index := list[index].(up := list[index].up + 1)]
  }

  /** `list` with the counter `down` of entry `index` raised by one. */
  function Downvoted(list: seq<Argument>, index: nat): (r: seq<Argument>)
    requires index < |list|
    ensures |r| == |list|
    ensures r[index] == list[index].(down := list[index].down + 1)
    ensures NetScore(r[index]) == NetScore(list[index]) - 1
    ensures forall j :: 0 <= j < |list| && j != index ==> r[j] == list[j]
  {
    list[index := list[index].(down := list[index].down + 1)]
  }

  /** Counters start at 0 and are only ever raised. */
  ghost predicate CountersNonNegative(list: seq<Argument>) {
    forall j :: 0 <= j < |list| ==> list[j].up >= 0 && list[j].down >= 0
  }

  class ArgumentBoard {
    var arguments: seq<Argument>
    var input: string

    ghost predicate Valid()
      reads this
    {
      |arguments| <= MaxArguments && CountersNonNegative(arguments)
    }

    constructor ()
      ensures Valid() && arguments == [] && input == ""
    {
      arguments := [];
      input := "";
    }

    /** The text field's change handler. */
    method SetInput(text: string)
      requires Valid()
      modifies this`input
      ensures Valid() && input == text
    {
      input := text;
    }

    /** The form's submit handler. */
    method Submit() returns (outcome: SubmitOutcome)
      requires Valid()
      modifies this
      ensures Valid()
      ensures outcome == Admission(old(input), |old(arguments)|)
      ensures outcome == Added ==>
        arguments == old(arguments) + [Argument(old(input), 0, 0)] && input == ""
      ensures outcome != Added ==> arguments == old(arguments) && input == old(input)
    {
      if WordCount(input) > MaxWords {
        return TooManyWords;
      }
      if |arguments| >= MaxArguments {
        return ListFull;
      }
      arguments := arguments + [Argument(input, 0, 0)];
      input := "";
      outcome := Added;
    }

    /**
     * The thumbs-up handler for entry `index`. An index outside the list
     * makes the handler fail before the list is replaced: `ok` is false and
     * nothing changes.
     */
    method Upvote(index: int) returns (ok: bool)
      requires Valid()
      modifies this`arguments
      ensures Valid()
      ensures ok <==> 0 <= index < |old(arguments)|
      ensures ok ==> arguments == Upvoted(old(arguments), index)
      ensures !ok ==> arguments == old(arguments)
    {
      if index < 0 || index >= |arguments| {
        return false;
      }
      arguments := Upvoted(arguments, index);
      ok := true;
    }

    /** The thumbs-down handler for entry `index`; as `Upvote`, for `down`. */
    method Downvote(index: int) returns (ok: bool)
      requires Valid()
      modifies this`arguments
      ensures Valid()
      ensures ok <==> 0 <= index < |old(arguments)|
      ensures ok ==> arguments == Downvoted(old(arguments), index)
      ensures !ok ==> arguments == old(arguments)
    {
      if index < 0 || index >= |arguments| {
        return false;
      }
      arguments := Downvoted(arguments, index);
      ok := true;
    }
  }

  /**
   * A board seen by its user: an empty submission is one word and is
   * admitted, a thumbs-up raises its net score, and a vote for an entry that
   * does not exist changes nothing.
   */
  method BoardWalkthrough()
  {
    var board := new ArgumentBoard();
    BlankTextIsOneWord("");
    var outcome := board.Submit();
    assert outcome == Added && board.arguments == [Argument("", 0, 0)];

    var ok := board.Upvote(0);
    assert ok && NetScore(board.arguments[0]) == 1;

    ok := board.Downvote(3);
    assert !ok && board.arguments == [Argument("", 1, 0)];
  }
}
