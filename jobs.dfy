/**
 * The integration server's `Jobs` helper: list the positions of the job
 * questions file as `{id, title}` pairs, and look up a position's questions
 * by its id. The file is given already read: None stands for a missing file
 * or one that is not valid JSON.
 */
module Jobs {
  import opened Wrappers
  import opened Json
  import Text

  /** How a call ends: it returns a value (None included), or it raises. */
  datatype Call<T> = Returns(value: Option<T>) | Raises

  /** `job_data.get("positions", [])` iterated, or None when that raises. */
  function Positions(data: Json): Option<seq<Json>> {
    if data.JObj? then Iter(Get(data, "positions", JArr([]))) else None
  }

  /** The `{id, title}` record of one position; a missing key is null. */
  function Summary(position: Json): Json
    requires position.JObj?
  {
    JObj([("id", Get(position, "id", JNull)), ("title", Get(position, "title", JNull))])
  }

  predicate AllObjects(ps: seq<Json>) {
    forall i :: 0 <= i < |ps| ==> ps[i].JObj?
  }

  /** `list_jobs`: one summary per position, in file order. */
  function ListJobs(file: Option<Json>): (r: Call<seq<Json>>)
    ensures file.None? ==> r == Returns(None)
    ensures file.Some? && Positions(file.value).None? ==> r == Raises
    ensures r.Returns? && r.value.Some? ==> file.Some? && Positions(file.value).Some?
    ensures r.Returns? && r.value.Some? && file.Some? && Positions(file.value).Some? ==>
      var ps := Positions(file.value).value;
      && |r.value.value| == |ps|
      && forall i :: 0 <= i < |ps| ==>
           && ps[i].JObj?
           && r.value.value[i] == JObj([("id", Get(ps[i], "id", JNull)), ("title", Get(ps[i], "title", JNull))])
    ensures file.Some? && Positions(file.value).Some? ==>
      (r.Raises? <==> !AllObjects(Positions(file.value).value))
  {
    match file
    case None => Returns(None)
    case Some(data) =>
      match Positions(data)
      case None => Raises
      case Some(ps) =>
        if AllObjects(ps) then Returns(Some(seq(|ps|, i requires 0 <= i < |ps| => Summary(ps[i]))))
        else Raises
  }

  predicate IdIs(p: Json, id: string, repr: Json -> string)
    requires p.JObj?
  {
    PyStr(Get(p, "id", JNull), repr) == id
  }

  /**
   * The linear search of `get_interview_questions` from index `from`: the
   * index of the first position whose `str(id)` equals `id`, all positions
   * before it being dicts with another id; nothing exactly when every
   * position is a dict with another id; a non-dict position reached before
   * a match raises.
   */
  function FindIndex(ps: seq<Json>, id: string, repr: Json -> string, from: nat): (r: Call<nat>)
    requires from <= |ps|
    ensures r.Returns? && r.value.Some? ==>
      var k := r.value.value;
      && from <= k < |ps| && ps[k].JObj? && IdIs(ps[k], id, repr)
      && forall j :: from <= j < k ==> ps[j].JObj? && !IdIs(ps[j], id, repr)
    ensures r == Returns(None) <==> forall j :: from <= j < |ps| ==> ps[j].JObj? && !IdIs(ps[j], id, repr)
    decreases |ps| - from
  {
    if from == |ps| then Returns(None)
    else if !ps[from].JObj? then Raises
    else if IdIs(ps[from], id, repr) then Returns(Some(from))
    else FindIndex(ps, id, repr, from + 1)
  }

  /** `get_interview_questions(id)`. */
  function GetInterviewQuestions(file: Option<Json>, id: string, repr: Json -> string): Call<Json> {
    match file
    case None => Returns(None)
    case Some(data) =>
      match Positions(data)
      case None => Raises
      case Some(ps) =>
        match FindIndex(ps, id, repr, 0)
        case Raises => Raises
        case Returns(None) => Returns(None)
        case Returns(Some(k)) => Returns(Some(Get(ps[k], "questions", JArr([]))))
  }

  /** `get_interview_questions` as the for loop with an early return. */
  method InterviewQuestions(file: Option<Json>, id: string, repr: Json -> string) returns (r: Call<Json>)
    ensures r == GetInterviewQuestions(file, id, repr)
  {
    if file.None? {
      return Returns(None);
    }
    var positions := Positions(file.value);
    if positions.None? {
      return Raises;
    }
    var ps := positions.value;
    for i := 0 to |ps|
      invariant FindIndex(ps, id, repr, 0) == FindIndex(ps, id, repr, i)
    {
      if !ps[i].JObj? {
        return Raises;
      }
      if PyStr(Get(ps[i], "id", JNull), repr) == id {
        return Returns(Some(Get(ps[i], "questions", JArr([]))));
      }
    }
    r := Returns(None);
  }

  /**
   * Ids are compared as text: a position with integer id `n` is found by the
   * decimal text of `n`, and any text that finds it parses back to `n`.
   */
  lemma IntegerIds(p: Json, n: int, id: string, repr: Json -> string)
    requires p.JObj? && Get(p, "id", JNull) == JInt(n)
    ensures IdIs(p, Text.IntToString(n), repr)
    ensures IdIs(p, id, repr) ==> Text.ParseInt(id) == Some(n)
  {
    Text.IntStringRoundTrip(n);
  }
}
