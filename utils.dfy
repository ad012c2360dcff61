/**
 * Resolution of the one reserved-name database container (src/utils.py).
 *
 * The daemon call that lists containers whose name matches the reserved
 * name is not modelled; its answer is the input sequence.
 */
module Utils {
  import opened Wrappers
  import opened Errors

  /** A container as the daemon reports it; only its id matters here. */
  datatype Container = Container(id: string)

  /** The ids of `cs`, position by position. */
  function ContainerIds(cs: seq<Container>): (ids: seq<string>)
    ensures |ids| == |cs|
    ensures forall i :: 0 <= i < |cs| ==> ids[i] == cs[i].id
  {
    if cs == [] then [] else [cs[0].id] + ContainerIds(cs[1..])
  }

  /**
   * Picks the sole matching container. No match is the not-found error; more
   * than one is the multiple-found error carrying every match's id.
   */
  function GetPostgresContainer(containers: seq<Container>): (r: Result<Container, AgentError>)
    ensures r == Failure(ContainerNotFound) <==> |containers| == 0
    ensures r.Success? <==> |containers| == 1
    ensures r.Success? ==> r.value == containers[0] && r.value in containers
    ensures (r.Failure? && r.error.MultipleContainers?) <==> |containers| > 1
    ensures r.Failure? && r.error.MultipleContainers? ==>
      |r.error.containerIds| == |containers| >= 2 &&
      forall i :: 0 <= i < |containers| ==> r.error.containerIds[i] == containers[i].id
  {
    if |containers| == 0 then Failure(ContainerNotFound)
    else if |containers| > 1 then Failure(MultipleContainers(ContainerIds(containers)))
    else Success(containers[0])
  }

  /** The three outcomes. */
  datatype Outcome = OneFound | NoneFound | ManyFound

  function OutcomeOf(r: Result<Container, AgentError>): Outcome {
    match r
    case Success(_) => OneFound
    case Failure(ContainerNotFound) => NoneFound
    case Failure(MultipleContainers(_)) => ManyFound
  }

  /** Which outcome occurs depends on the length of the list alone. */
  lemma OutcomeDecidedByLength(a: seq<Container>, b: seq<Container>)
    ensures OutcomeOf(GetPostgresContainer(a)) == OutcomeOf(GetPostgresContainer(b)) <==> (
      (|a| == 0 && |b| == 0) || (|a| == 1 && |b| == 1) || (|a| > 1 && |b| > 1))
  {
  }

  /**
   * The error text that reaches a task's record when resolution fails on a
   * list of several containers: every id, in list order.
   */
  lemma MultipleFoundMessage(containers: seq<Container>)
    requires |containers| > 1
    requires forall i :: 0 <= i < |containers| ==> ',' !in containers[i].id
    ensures GetPostgresContainer(containers).Failure?
    ensures var m := Message(GetPostgresContainer(containers).error);
      MULTIPLE_PREFIX <= m && SplitIds(m[|MULTIPLE_PREFIX|..]) == ContainerIds(containers)
  {
    var ids := ContainerIds(containers);
    assert GetPostgresContainer(containers) == Failure(MultipleContainers(ids));
    assert forall k :: 0 <= k < |ids| ==> ',' !in ids[k] by {
      forall k | 0 <= k < |ids| ensures ',' !in ids[k] {
        assert ids[k] == containers[k].id;
      }
    }
    MultipleMessageListsIds(ids);
  }

  // ----- The multiple-found branch as written -----

  /** What constructing or raising an error can end in. */
  datatype Raised =
    | Agent(error: AgentError)
      /** Python's TypeError for a keyword argument the constructor does not declare. */
    | UnexpectedKeyword(name: string)

  /** The one field the multiple-found error's dataclass declares. */
  const MULTIPLE_ERROR_FIELD: string := "containers"

  /** The dataclass's generated constructor, called with one keyword argument. */
  function ConstructMultipleError(keyword: string, ids: seq<string>): (r: Raised)
    ensures r.Agent? <==> keyword == MULTIPLE_ERROR_FIELD
  {
    if keyword == MULTIPLE_ERROR_FIELD then Agent(MultipleContainers(ids))
    else UnexpectedKeyword(keyword)
  }

  /** Resolution exactly as the source writes it: the error is built with `container_ids=`. */
  function GetPostgresContainerAsWritten(containers: seq<Container>): (r: Result<Container, Raised>)
    ensures |containers| <= 1 ==>
      r == match GetPostgresContainer(containers)
           case Success(c) => Success(c)
           case Failure(e) => Failure(Agent(e))
  {
    if |containers| == 0 then Failure(Agent(ContainerNotFound))
    else if |containers| > 1 then Failure(ConstructMultipleError("container_ids", ContainerIds(containers)))
    else Success(containers[0])
  }

  /** As written, every list of two or more matches raises a TypeError instead of the multiple-found error. */
  lemma AsWrittenMultipleIsTypeError(containers: seq<Container>)
    requires |containers| > 1
    ensures GetPostgresContainerAsWritten(containers) == Failure(UnexpectedKeyword("container_ids"))
    ensures GetPostgresContainer(containers).Failure? && GetPostgresContainer(containers).error.MultipleContainers?
  {
  }

  /** Two containers named like the reserved name: the source raises a TypeError, the model the multiple-found error. */
  lemma TwoMatchesCounterexample()
    ensures GetPostgresContainerAsWritten([Container("a1"), Container("b2")]).error.UnexpectedKeyword?
    ensures GetPostgresContainer([Container("a1"), Container("b2")]) == Failure(MultipleContainers(["a1", "b2"]))
  {
    assert ContainerIds([Container("a1"), Container("b2")]) == ["a1", "b2"];
  }
}
