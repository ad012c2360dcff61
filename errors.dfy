/**
 * The agent's own errors (src/errors.py) and their messages.
 *
 * Both error kinds are frozen dataclasses in the source; here they are
 * constructors of one immutable datatype, and `Message` is total over it.
 */
module Errors {

  datatype AgentError =
    | ContainerNotFound
      /** Carries the ids of every matched container, in the daemon's order. */
    | MultipleContainers(containerIds: seq<string>)

  const NOT_FOUND_MESSAGE: string := "Container postgres not found"
  const MULTIPLE_PREFIX: string := "Multiple postgres containers found: "
  const SEPARATOR: string := ", "

  /** Sum of the lengths of `parts`. */
  function TotalLength(parts: seq<string>): nat {
    if parts == [] then 0 else |parts[0]| + TotalLength(parts[1..])
  }

  /** Python's `sep.join(parts)`: the parts in order, `sep` between neighbours. */
  function Join(sep: string, parts: seq<string>): (r: string)
    ensures parts == [] ==> r == []
    ensures parts != [] ==> |r| == TotalLength(parts) + (|parts| - 1) * |sep|
  {
    if |parts| == 0 then ""
    else if |parts| == 1 then parts[0]
    else parts[0] + sep + Join(sep, parts[1..])
  }

  /** Appending a part puts it at the end, after one separator. */
  lemma {:induction false} JoinAppend(sep: string, parts: seq<string>, x: string)
    requires parts != []
    ensures Join(sep, parts + [x]) == Join(sep, parts) + sep + x
  {
    if |parts| == 1 {
      assert parts + [x] == [parts[0], x];
      assert (parts + [x])[1..] == [x];
    } else {
      assert (parts + [x])[0] == parts[0];
      assert (parts + [x])[1..] == parts[1..] + [x];
      JoinAppend(sep, parts[1..], x);
    }
  }

  /** Python's `s.split(", ")`: the pieces between occurrences of the separator. */
  function SplitIds(s: string): (r: seq<string>)
    ensures |r| >= 1
    decreases |s|
  {
    if |s| == 0 then [""]
    else if |s| >= 2 && s[0] == ',' && s[1] == ' ' then [""] + SplitIds(s[2..])
    else
      var rest := SplitIds(s[1..]);
      [[s[0]] + rest[0]] + rest[1..]
  }

  /** A piece without a comma splits to itself. */
  lemma {:induction false} SplitIdsPlain(p: string)
    requires ',' !in p
    ensures SplitIds(p) == [p]
    decreases |p|
  {
    if |p| > 0 {
      assert p[0] in p;
      assert ',' !in p[1..] by { forall i | 0 <= i < |p[1..]| ensures p[1..][i] != ',' { assert p[1..][i] == p[i + 1]; } }
      SplitIdsPlain(p[1..]);
      assert [p[0]] + p[1..] == p;
    }
  }

  /** A comma-free piece followed by the separator is split off as the first piece. */
  lemma {:induction false} SplitIdsHead(p: string, rest: string)
    requires ',' !in p
    ensures SplitIds(p + SEPARATOR + rest) == [p] + SplitIds(rest)
    decreases |p|
  {
    var s := p + SEPARATOR + rest;
    if |p| == 0 {
      assert s == SEPARATOR + rest;
      assert s[2..] == rest;
    } else {
      assert p[0] in p;
      assert ',' !in p[1..] by { forall i | 0 <= i < |p[1..]| ensures p[1..][i] != ',' { assert p[1..][i] == p[i + 1]; } }
      assert s[0] == p[0];
      assert s[1..] == p[1..] + SEPARATOR + rest;
      SplitIdsHead(p[1..], rest);
      assert [p[0]] + p[1..] == p;
    }
  }

  /** Splitting undoes joining, as long as no id contains a comma. */
  lemma {:induction false} SplitJoin(ids: seq<string>)
    requires ids != []
    requires forall k :: 0 <= k < |ids| ==> ',' !in ids[k]
    ensures SplitIds(Join(SEPARATOR, ids)) == ids
  {
    if |ids| == 1 {
      SplitIdsPlain(ids[0]);
    } else {
      SplitJoin(ids[1..]);
      SplitIdsHead(ids[0], Join(SEPARATOR, ids[1..]));
      assert [ids[0]] + ids[1..] == ids;
    }
  }

  /** The text a caller sees for an error. Every error has a non-empty one. */
  function Message(e: AgentError): (r: string)
    ensures |r| > 0
    ensures e.MultipleContainers? <==> MULTIPLE_PREFIX <= r
  {
    match e
    case ContainerNotFound =>
      assert NOT_FOUND_MESSAGE[0] != MULTIPLE_PREFIX[0];
      NOT_FOUND_MESSAGE
    case MultipleContainers(ids) => MULTIPLE_PREFIX + Join(SEPARATOR, ids)
  }

  /** The not-found message is one fixed text. */
  lemma NotFoundMessageFixed()
    ensures Message(ContainerNotFound) == "Container postgres not found"
  {
  }

  /**
   * The multiple-found message is the prefix followed by the ids, in list
   * order and each once: splitting what follows the prefix gives the list back.
   */
  lemma MultipleMessageListsIds(ids: seq<string>)
    requires ids != []
    requires forall k :: 0 <= k < |ids| ==> ',' !in ids[k]
    ensures var m := Message(MultipleContainers(ids));
      MULTIPLE_PREFIX <= m && SplitIds(m[|MULTIPLE_PREFIX|..]) == ids
  {
    var m := Message(MultipleContainers(ids));
    assert m[|MULTIPLE_PREFIX|..] == Join(SEPARATOR, ids);
    SplitJoin(ids);
  }

  /** With one id there is no separator: the message is the prefix and the id. */
  lemma SingleIdMessage(id: string)
    ensures Message(MultipleContainers([id])) == MULTIPLE_PREFIX + id
  {
  }

  /** One more id at the end of the list adds the separator and that id at the end of the message. */
  lemma MultipleMessageAppend(ids: seq<string>, id: string)
    requires ids != []
    ensures Message(MultipleContainers(ids + [id])) == Message(MultipleContainers(ids)) + SEPARATOR + id
  {
    JoinAppend(SEPARATOR, ids, id);
  }
}
