/**
 * The `get_job_questions` tool of the interview bots (the Daily bot's copy
 * and the integration server's copy): find the position the candidate named
 * (a substring of a title, else any word of the query in a title, else the
 * first position) and hand out its questions one at a time through a global
 * cursor that wraps around. The questions file is taken as already parsed.
 */
module Interview {
  import opened Wrappers
  import opened Text

  /** One question of a position; a missing key is None. */
  datatype Question = Question(question: Option<string>, expectation: Option<string>)

  /** One position of the questions file; `questions` defaults to the empty list. */
  datatype Position = Position(title: Option<string>, questions: seq<Question>)

  /** The tool's reply: one question, or an error message. */
  datatype Reply = Asked(question: string, expectation: string) | Failed(message: string)

  const PositionRequired: string := "Position parameter is required"
  const NoPositions: string := "No job positions found in the data"

  /** `pos.get("title", "").lower()`. */
  function TitleText(p: Position): string {
    Lower(p.title.GetOr(""))
  }

  /** `matched_position.get('title')` as an f-string shows it. */
  function TitleShown(p: Position): string {
    match p.title
    case Some(t) => t
    case None => "None"
  }

  /** The first position at or after `from` whose title contains `q`. */
  function FirstContaining(ps: seq<Position>, q: string, from: nat): (r: Option<nat>)
    requires from <= |ps|
    ensures r.Some? ==> from <= r.value < |ps| && Contains(q, TitleText(ps[r.value]))
    ensures r.Some? ==> forall j :: from <= j < r.value ==> !Contains(q, TitleText(ps[j]))
    ensures r.None? ==> forall j :: from <= j < |ps| ==> !Contains(q, TitleText(ps[j]))
    decreases |ps| - from
  {
    if from == |ps| then None
    else if Contains(q, TitleText(ps[from])) then Some(from)
    else FirstContaining(ps, q, from + 1)
  }

  /** `any(word in title for word in words)`. */
  predicate AnyWordIn(words: seq<string>, title: string) {
    exists i :: 0 <= i < |words| && Contains(words[i], title)
  }

  /** The first position at or after `from` whose title contains some word of `words`. */
  function FirstWithWord(ps: seq<Position>, words: seq<string>, from: nat): (r: Option<nat>)
    requires from <= |ps|
    ensures r.Some? ==> from <= r.value < |ps| && AnyWordIn(words, TitleText(ps[r.value]))
    ensures r.Some? ==> forall j :: from <= j < r.value ==> !AnyWordIn(words, TitleText(ps[j]))
    ensures r.None? ==> forall j :: from <= j < |ps| ==> !AnyWordIn(words, TitleText(ps[j]))
    decreases |ps| - from
  {
    if from == |ps| then None
    else if AnyWordIn(words, TitleText(ps[from])) then Some(from)
    else FirstWithWord(ps, words, from + 1)
  }

  /** The matched position: by substring, else by word, else the first one; None only with no positions. */
  function MatchPosition(ps: seq<Position>, q: string): Option<nat> {
    match FirstContaining(ps, q, 0)
    case Some(k) => Some(k)
    case None =>
      match FirstWithWord(ps, Split(q), 0)
      case Some(k) => Some(k)
      case None => if ps != [] then Some(0) else None
  }

  /**
   * The three-step fallback: the result is the first title containing the
   * query; failing that, the first title containing one of its words;
   * failing that, the first position. There is no match only when there are
   * no positions.
   */
  lemma MatchOrder(ps: seq<Position>, q: string)
    ensures MatchPosition(ps, q).None? <==> ps == []
    ensures var m := MatchPosition(ps, q); m.Some? ==>
      var k := m.value;
      && k < |ps|
      && ((Contains(q, TitleText(ps[k])) && forall j :: 0 <= j < k ==> !Contains(q, TitleText(ps[j])))
       || ((forall j :: 0 <= j < |ps| ==> !Contains(q, TitleText(ps[j])))
           && AnyWordIn(Split(q), TitleText(ps[k]))
           && forall j :: 0 <= j < k ==> !AnyWordIn(Split(q), TitleText(ps[j])))
       || ((forall j :: 0 <= j < |ps| ==> !Contains(q, TitleText(ps[j]) ) && !AnyWordIn(Split(q), TitleText(ps[j])))
           && k == 0))
  {
  }

  /** The cursor value actually used: reset to 0 when outside `[0, n)`. */
  function Start(index: int, n: nat): (s: nat)
    requires n > 0
    ensures s < n
  {
    if 0 <= index < n then index else 0
  }

  /** What a call answers, and the cursor after it, once the query `q` is fixed. */
  function Answer(index: int, q: string, ps: seq<Position>): (Reply, int) {
    match MatchPosition(ps, q)
    case None => (Failed(NoPositions), index)
    case Some(k) =>
      MatchInRange(ps, q);
      var qs := ps[k].questions;
      if qs == [] then (Failed("No questions found for position: " + TitleShown(ps[k])), index)
      else
        var s := Start(index, |qs|);
        (Asked(qs[s].question.GetOr(""), qs[s].expectation.GetOr("")), (s + 1) % |qs|)
  }

  lemma MatchInRange(ps: seq<Position>, q: string)
    ensures MatchPosition(ps, q).Some? ==> MatchPosition(ps, q).value < |ps|
  {
  }

  /** The query: `arguments.get("position", "").strip().lower()`. */
  function Query(position: Option<string>): string {
    Lower(Strip(position.GetOr("")))
  }

  /** The Daily bot's tool: an empty query is refused before anything else. */
  function DailyAnswer(index: int, position: Option<string>, ps: seq<Position>): (Reply, int) {
    var q := Query(position);
    if q == "" then (Failed(PositionRequired), index) else Answer(index, q, ps)
  }

  /** The integration server's tool: no empty check, and the query is lowered a second time. */
  function ServerAnswer(index: int, position: Option<string>, ps: seq<Position>): (Reply, int) {
    Answer(index, Lower(Query(position)), ps)
  }

  /** An empty query on the Daily bot is an error and leaves the cursor alone. */
  lemma DailyEmptyQuery(index: int, position: Option<string>, ps: seq<Position>)
    requires Query(position) == ""
    ensures DailyAnswer(index, position, ps) == (Failed(PositionRequired), index)
  {
  }

  /**
   * On the integration server the second lowering changes nothing, and an
   * empty query is contained in every title, so it matches the first position.
   */
  lemma ServerQuery(index: int, position: Option<string>, ps: seq<Position>)
    ensures ServerAnswer(index, position, ps) == Answer(index, Query(position), ps)
    ensures Query(position) == "" && ps != [] ==> MatchPosition(ps, Query(position)) == Some(0)
  {
    LowerIdempotent(Strip(position.GetOr("")));
    if Query(position) == "" && ps != [] {
      EmptyInEverything(TitleText(ps[0]));
    }
  }

  /**
   * A matched position without questions is an error that leaves the
   * cursor unchanged; otherwise the reply is the question under the (reset)
   * cursor, whose missing fields read as "", and the cursor moves on by one
   * modulo the number of questions, so it ends in range.
   */
  lemma AnswerRules(index: int, q: string, ps: seq<Position>)
    ensures var m := MatchPosition(ps, q); var r := Answer(index, q, ps);
      && (m.None? ==> r == (Failed(NoPositions), index))
      && (m.Some? && m.value < |ps| && ps[m.value].questions == [] ==> r.0.Failed? && r.1 == index)
      && (m.Some? && m.value < |ps| && ps[m.value].questions != [] ==>
            var qs := ps[m.value].questions; var s := Start(index, |qs|);
            && r.0 == Asked(qs[s].question.GetOr(""), qs[s].expectation.GetOr(""))
            && 0 <= r.1 < |qs| && r.1 == (s + 1) % |qs|)
  {
    MatchInRange(ps, q);
  }

  /** The questions handed out by `k` calls in a row on the same list, starting from cursor `index`. */
  function Schedule(index: int, qs: seq<Question>, k: nat): seq<Question>
    requires qs != []
    decreases k
  {
    if k == 0 then [] else
      var s := Start(index, |qs|);
      [qs[s]] + Schedule((s + 1) % |qs|, qs, k - 1)
  }

  /** The cursor after `k` calls in a row on the same list. */
  function After(index: int, qs: seq<Question>, k: nat): int
    requires qs != []
    decreases k
  {
    if k == 0 then index else After((Start(index, |qs|) + 1) % |qs|, qs, k - 1)
  }

  /** `(c + 1) % n` for a cursor in range: the next index, or 0 past the end. */
  lemma Advance(c: nat, n: nat)
    requires c < n
    ensures (c + 1) % n == if c + 1 == n then 0 else c + 1
  {
  }

  /** From an in-range cursor, calls that do not pass the end hand out consecutive questions. */
  lemma {:induction false} ScheduleRun(c: nat, qs: seq<Question>, m: nat)
    requires c < |qs| && c + m <= |qs|
    ensures Schedule(c, qs, m) == qs[c..c + m]
    ensures After(c, qs, m) == if c + m == |qs| then 0 else c + m
    decreases m
  {
    if m > 0 {
      var n := |qs|;
      Advance(c, n);
      var next := (c + 1) % n;
      assert Start(c, n) == c;
      assert Schedule(c, qs, m) == [qs[c]] + Schedule(next, qs, m - 1);
      assert After(c, qs, m) == After(next, qs, m - 1);
      if c + 1 < n {
        assert next == c + 1;
        ScheduleRun(c + 1, qs, m - 1);
        assert qs[c..c + m] == [qs[c]] + qs[c + 1..c + m];
      } else {
        assert m == 1 && next == 0;
      }
    }
  }

  /** `a + b` calls are `a` calls followed by `b` calls from where the first ones left the cursor. */
  lemma {:induction false} ScheduleSplit(index: int, qs: seq<Question>, a: nat, b: nat)
    requires qs != []
    ensures Schedule(index, qs, a + b) == Schedule(index, qs, a) + Schedule(After(index, qs, a), qs, b)
    ensures After(index, qs, a + b) == After(After(index, qs, a), qs, b)
    decreases a
  {
    if a > 0 {
      var next := (Start(index, |qs|) + 1) % |qs|;
      ScheduleSplit(next, qs, a - 1, b);
      assert a + b - 1 == (a - 1) + b;
    }
  }

  /**
   * Repeated calls cycle: one round of `|qs|` calls asks every question
   * once, in order from the (reset) cursor round to the end and on from the
   * start, and leaves the cursor where that round began.
   */
  lemma FullCycle(index: int, qs: seq<Question>)
    requires qs != []
    ensures var c := Start(index, |qs|);
      && Schedule(index, qs, |qs|) == qs[c..] + qs[..c]
      && After(index, qs, |qs|) == c
  {
    ResetFirst(index, qs, |qs|);
    RoundFrom(Start(index, |qs|), qs);
  }

  /** One round from an in-range cursor `c`: to the end, then from the start up to `c`. */
  lemma RoundFrom(c: nat, qs: seq<Question>)
    requires c < |qs|
    ensures Schedule(c, qs, |qs|) == qs[c..] + qs[..c]
    ensures After(c, qs, |qs|) == c
  {
    var n := |qs|;
    var m := n - c;
    ScheduleSplit(c, qs, m, c);
    assert m + c == n;
    ScheduleRun(c, qs, m);
    assert After(c, qs, m) == 0;
    if c > 0 {
      ScheduleRun(0, qs, c);
    }
    assert Schedule(0, qs, c) == qs[..c] && After(0, qs, c) == c;
  }

  /** The cursor is reset before its first use, so calls from `index` and from its reset value agree. */
  lemma ResetFirst(index: int, qs: seq<Question>, k: nat)
    requires qs != [] && k > 0
    ensures Schedule(index, qs, k) == Schedule(Start(index, |qs|), qs, k)
    ensures After(index, qs, k) == After(Start(index, |qs|), qs, k)
  {
    var c := Start(index, |qs|);
    assert Start(c, |qs|) == c;
  }

  /** A call that finds questions answers the next entry of the schedule and moves the cursor as it does. */
  lemma AnswerFollowsSchedule(index: int, q: string, ps: seq<Position>)
    requires MatchPosition(ps, q).Some?
    requires MatchPosition(ps, q).value < |ps| && ps[MatchPosition(ps, q).value].questions != []
    ensures var qs := ps[MatchPosition(ps, q).value].questions; var next := Schedule(index, qs, 1)[0];
      Answer(index, q, ps) == (Asked(next.question.GetOr(""), next.expectation.GetOr("")), After(index, qs, 1))
  {
  }

  /** `CURRENT_QUESTION_INDEX`, the module-level cursor. */
  class QuestionCursor {
    var index: int

    constructor()
      ensures index == 0
    {
      index := 0;
    }

    /** Reset the cursor if it is out of range, take that question, advance modulo the count. */
    method Next(qs: seq<Question>) returns (q: Question)
      requires qs != []
      modifies this
      ensures q == qs[Start(old(index), |qs|)]
      ensures index == (Start(old(index), |qs|) + 1) % |qs|
    {
      if index < 0 || index >= |qs| {
        index := 0;
      }
      q := qs[index];
      index := (index + 1) % |qs|;
    }
  }

  /** The two search loops and the fallback to the first position. */
  method FindPosition(ps: seq<Position>, q: string) returns (m: Option<nat>)
    ensures m == MatchPosition(ps, q)
  {
    m := None;
    for k := 0 to |ps|
      invariant FirstContaining(ps, q, 0) == (if m.Some? then m else FirstContaining(ps, q, k))
    {
      if Contains(q, TitleText(ps[k])) {
        m := Some(k);
        break;
      }
    }
    if m.None? {
      var words := Split(q);
      for k := 0 to |ps|
        invariant FirstWithWord(ps, words, 0) == (if m.Some? then m else FirstWithWord(ps, words, k))
      {
        if AnyWordIn(words, TitleText(ps[k])) {
          m := Some(k);
          break;
        }
      }
    }
    if m.None? && ps != [] {
      m := Some(0);
    }
  }

  /** Everything after the query is known, shared by both copies of the tool. */
  method Respond(cursor: QuestionCursor, q: string, ps: seq<Position>) returns (r: Reply)
    modifies cursor
    ensures (r, cursor.index) == Answer(old(cursor.index), q, ps)
  {
    var m := FindPosition(ps, q);
    MatchInRange(ps, q);
    if m.None? {
      return Failed(NoPositions);
    }
    var qs := ps[m.value].questions;
    if qs == [] {
      return Failed("No questions found for position: " + TitleShown(ps[m.value]));
    }
    var picked := cursor.Next(qs);
    r := Asked(picked.question.GetOr(""), picked.expectation.GetOr(""));
  }

  /** The Daily bot's `get_job_questions`. */
  method DailyGetJobQuestions(cursor: QuestionCursor, position: Option<string>, ps: seq<Position>) returns (r: Reply)
    modifies cursor
    ensures (r, cursor.index) == DailyAnswer(old(cursor.index), position, ps)
  {
    var q := Lower(Strip(position.GetOr("")));
    if q == "" {
      return Failed(PositionRequired);
    }
    r := Respond(cursor, q, ps);
  }

  /** The integration server's `get_job_questions`. */
  method ServerGetJobQuestions(cursor: QuestionCursor, position: Option<string>, ps: seq<Position>) returns (r: Reply)
    modifies cursor
    ensures (r, cursor.index) == ServerAnswer(old(cursor.index), position, ps)
  {
    var jobTitle := Lower(Strip(position.GetOr("")));
    r := Respond(cursor, Lower(jobTitle), ps);
  }
}
