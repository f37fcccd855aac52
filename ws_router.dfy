/**
 * The websocket relay's per-connection loop (`websocket_handler`): each
 * client message is parsed, unwrapped from a `body` envelope, and routed by
 * the first key of its `event` object to the session manager (created on
 * the first event), and the health-check handler's path decision. The
 * manager calls are recorded as actions; an exception while handling one
 * message drops that message and the loop goes on.
 */
module WsRouter {
  import opened Wrappers
  import opened Json

  /** What the loop asks of the session manager. */
  datatype Action =
    | CreateManager(promptName: Json, textContentName: Json, audioContentName: Json)
    | AddAudio(promptName: Json, contentName: Json, content: Json)
    | SendRaw(event: Json)
    | CloseManager

  /** The effect of one message: whether a manager exists afterwards, the actions, and whether the loop stops. */
  datatype Outcome = Outcome(manager: bool, actions: seq<Action>, stop: bool)

  /** `event.get('init', {}).get(key, '')`, or None when either `get` raises. */
  function InitName(ev: Json, key: string): Option<Json> {
    if !ev.JObj? then None
    else
      var init := Get(ev, "init", Empty);
      if !init.JObj? then None else Some(Get(init, key, JStr("")))
  }

  /** The manager creation on the first event: None when reading the names raises. */
  function Create(ev: Json): Option<Action> {
    if !ev.JObj? || !Get(ev, "init", Empty).JObj? then None
    else Some(CreateManager(InitName(ev, "promptName").value, InitName(ev, "textContentName").value,
                            InitName(ev, "audioContentName").value))
  }

  /** The type-specific handling once the event's first key `ty` is known. */
  function Dispatch(data: Json, ev: Json, ty: string, acts: seq<Action>): Outcome {
    if ty == "" || ty == "init" || ty == "ping" then Outcome(true, acts, false)
    else if ty == "audioInput" then
      match Subscript(ev, "audioInput")
      case None => Outcome(true, acts, false)
      case Some(ai) =>
        var p := Subscript(ai, "promptName");
        var c := Subscript(ai, "contentName");
        var x := Subscript(ai, "content");
        if p.None? || c.None? || x.None? then Outcome(true, acts, false)
        else Outcome(true, acts + [AddAudio(p.value, c.value, x.value)], false)
    else if ty == "sessionEnd" then Outcome(false, acts + [SendRaw(data), CloseManager], true)
    else Outcome(true, acts + [SendRaw(data)], false)
  }

  /** Routing of one parsed message (after any `body` unwrapping). */
  function RouteData(manager: bool, data: Json): Outcome {
    if PyIn("event", data) != Some(true) then Outcome(manager, [], false)
    else match Subscript(data, "event")
      case None => Outcome(manager, [], false)
      case Some(ev) =>
        var created := if manager then Some(None) else match Create(ev) case None => None case Some(a) => Some(Some(a));
        if created.None? then Outcome(manager, [], false)
        else
          var acts := if created.value.Some? then [created.value.value] else [];
          if !ev.JObj? || ev.fields == [] then Outcome(true, acts, false)
          else Dispatch(data, ev, ev.fields[0].0, acts)
  }

  /** One raw message: parse it, unwrap a `body` string, route. */
  function RouteMessage(manager: bool, message: string, parse: string -> Option<Json>): Outcome {
    match parse(message)
    case None => Outcome(manager, [], false)
    case Some(d0) =>
      match PyIn("body", d0)
      case None => Outcome(manager, [], false)
      case Some(false) => RouteData(manager, d0)
      case Some(true) =>
        match Subscript(d0, "body")
        case None => Outcome(manager, [], false)
        case Some(b) =>
          if !b.JStr? then Outcome(manager, [], false)
          else match parse(b.s)
            case None => Outcome(manager, [], false)
            case Some(d) => RouteData(manager, d)
  }

  /** The loop from `manager` over `msgs`: the actions and whether a manager is left open. */
  function RouteAll(manager: bool, msgs: seq<string>, parse: string -> Option<Json>): (bool, seq<Action>)
    decreases |msgs|
  {
    if msgs == [] then (manager, [])
    else
      var o := RouteMessage(manager, msgs[0], parse);
      if o.stop then (o.manager, o.actions)
      else var r := RouteAll(o.manager, msgs[1..], parse); (r.0, o.actions + r.1)
  }

  /** The whole handler: the loop, then the `finally` that closes a manager still open. */
  function Session(msgs: seq<string>, parse: string -> Option<Json>): seq<Action> {
    var r := RouteAll(false, msgs, parse);
    r.1 + if r.0 then [CloseManager] else []
  }

  /** The loop's result with `acts` already emitted in front. */
  function Prepend(acts: seq<Action>, r: (bool, seq<Action>)): (bool, seq<Action>) {
    (r.0, acts + r.1)
  }

  /** One turn of the loop: the actions so far plus the rest of the loop from the next message. */
  lemma RouteAllStep(manager: bool, msgs: seq<string>, i: nat, parse: string -> Option<Json>, acts: seq<Action>)
    requires i < |msgs|
    ensures var o := RouteMessage(manager, msgs[i], parse);
      Prepend(acts, RouteAll(manager, msgs[i..], parse)) ==
        if o.stop then (o.manager, acts + o.actions)
        else Prepend(acts + o.actions, RouteAll(o.manager, msgs[i + 1..], parse))
  {
    assert msgs[i..][1..] == msgs[i + 1..];
    var o := RouteMessage(manager, msgs[i], parse);
    var r := RouteAll(o.manager, msgs[i + 1..], parse);
    assert acts + (o.actions + r.1) == (acts + o.actions) + r.1;
  }

  /** `websocket_handler` over the messages the connection delivers. */
  method WebsocketHandler(msgs: seq<string>, parse: string -> Option<Json>) returns (actions: seq<Action>)
    ensures actions == Session(msgs, parse)
  {
    var manager := false;
    actions := [];
    var i := 0;
    assert msgs[0..] == msgs && [] + RouteAll(false, msgs, parse).1 == RouteAll(false, msgs, parse).1;
    assert RouteAll(false, msgs, parse) == Prepend([], RouteAll(false, msgs[0..], parse));
    while i < |msgs|
      invariant 0 <= i <= |msgs|
      invariant RouteAll(false, msgs, parse) == Prepend(actions, RouteAll(manager, msgs[i..], parse))
      decreases |msgs| - i
    {
      var o := RouteMessage(manager, msgs[i], parse);
      RouteAllStep(manager, msgs, i, parse, actions);
      actions := actions + o.actions;
      manager := o.manager;
      if o.stop {
        break;
      }
      i := i + 1;
    }
    if manager {
      actions := actions + [CloseManager];
    }
  }

  /** A message with a `body` string is routed as the JSON that string holds. */
  lemma BodyUnwrapped(manager: bool, message: string, parse: string -> Option<Json>, body: string)
    requires parse(message).Some? && parse(message).value.JObj?
    requires Lookup(parse(message).value.fields, "body") == Some(JStr(body)) && parse(body).Some?
    ensures RouteMessage(manager, message, parse) == RouteData(manager, parse(body).value)
  {
    LookupSpec(parse(message).value.fields, "body");
  }

  /** Messages without `event`, and text that is not JSON, are ignored. */
  lemma NoEventIgnored(manager: bool, data: Json)
    requires data.JObj? && "event" !in Keys(data.fields)
    ensures RouteData(manager, data) == Outcome(manager, [], false)
  {
  }

  /**
   * The first event creates the manager, its names read from `event.init`
   * with "" for a missing one; once a manager exists, no event creates another.
   */
  lemma CreatedOnFirstEvent(manager: bool, data: Json, ev: Json)
    requires data.JObj? && Lookup(data.fields, "event") == Some(ev)
    requires ev.JObj? && ev.fields != [] && Get(ev, "init", Empty).JObj?
    ensures var o := RouteData(manager, data);
      && o.manager == (ev.fields[0].0 != "sessionEnd")
      && (!manager ==> o.actions != [] && o.actions[0] == CreateManager(
            Get(Get(ev, "init", Empty), "promptName", JStr("")),
            Get(Get(ev, "init", Empty), "textContentName", JStr("")),
            Get(Get(ev, "init", Empty), "audioContentName", JStr(""))))
      && (manager ==> forall k :: 0 <= k < |o.actions| ==> !o.actions[k].CreateManager?)
  {
    LookupSpec(data.fields, "event");
  }

  /** The dispatch: audio is queued and not forwarded; init and ping are dropped; any other type is forwarded unchanged. */
  lemma DispatchRules(data: Json, ev: Json, ty: string, acts: seq<Action>)
    ensures var o := Dispatch(data, ev, ty, acts);
      && o.actions[..|acts|] == acts
      && (ty == "audioInput" ==> forall k :: |acts| <= k < |o.actions| ==> o.actions[k].AddAudio?)
      && (ty == "init" || ty == "ping" ==> o.actions == acts && !o.stop)
      && (ty != "" && ty != "init" && ty != "ping" && ty != "audioInput" && ty != "sessionEnd" ==>
            o.actions == acts + [SendRaw(data)] && !o.stop)
      && (ty == "sessionEnd" <==> o.stop)
      && (ty == "sessionEnd" ==> o.actions == acts + [SendRaw(data), CloseManager] && !o.manager)
  {
  }

  /** A message that raises while being handled is dropped and the loop continues with the next one. */
  lemma FailureContinues(manager: bool, bad: string, rest: seq<string>, parse: string -> Option<Json>)
    requires parse(bad).None?
    ensures RouteAll(manager, [bad] + rest, parse) == RouteAll(manager, rest, parse)
  {
    assert ([bad] + rest)[1..] == rest;
    assert [] + RouteAll(manager, rest, parse).1 == RouteAll(manager, rest, parse).1;
  }

  /** After `sessionEnd` the loop stops: no later message is processed. */
  lemma SessionEndStops(manager: bool, msg: string, rest1: seq<string>, rest2: seq<string>, parse: string -> Option<Json>)
    requires RouteMessage(manager, msg, parse).stop
    ensures RouteAll(manager, [msg] + rest1, parse) == RouteAll(manager, [msg] + rest2, parse)
    ensures !RouteAll(manager, [msg] + rest1, parse).0
  {
    MessageShaped(manager, msg, parse);
  }

  /** What any outcome satisfies: a stop closes the manager, a creation comes first and only without a manager. */
  predicate WellShaped(manager: bool, o: Outcome) {
    && (o.stop ==> !o.manager) && (!o.stop && manager ==> o.manager)
    && (!o.manager && !o.stop ==> o.actions == [])
    && (o.stop ==> |o.actions| >= 1 && o.actions[|o.actions| - 1] == CloseManager)
    && (forall k :: 0 <= k < |o.actions| && o.actions[k].CloseManager? ==> o.stop && k == |o.actions| - 1)
    && (forall k :: 0 <= k < |o.actions| && o.actions[k].CreateManager? ==> !manager && k == 0)
  }

  lemma DispatchShaped(manager: bool, data: Json, ev: Json, ty: string, acts: seq<Action>)
    requires |acts| <= 1 && (acts != [] ==> !manager && acts[0].CreateManager?)
    ensures WellShaped(manager, Dispatch(data, ev, ty, acts))
  {
  }

  lemma RouteDataShaped(manager: bool, data: Json)
    ensures WellShaped(manager, RouteData(manager, data))
  {
    if PyIn("event", data) == Some(true) && Subscript(data, "event").Some? {
      var ev := Subscript(data, "event").value;
      if !manager && Create(ev).Some? && ev.JObj? && ev.fields != [] {
        DispatchShaped(manager, data, ev, ev.fields[0].0, [Create(ev).value]);
      } else if manager && ev.JObj? && ev.fields != [] {
        DispatchShaped(manager, data, ev, ev.fields[0].0, []);
      }
    }
  }

  /** The data a message is routed as, or None when it is dropped before routing. */
  function Routed(message: string, parse: string -> Option<Json>): Option<Json> {
    match parse(message)
    case None => None
    case Some(d0) =>
      match PyIn("body", d0)
      case None => None
      case Some(false) => Some(d0)
      case Some(true) =>
        match Subscript(d0, "body")
        case None => None
        case Some(b) => if !b.JStr? then None else parse(b.s)
  }

  lemma RoutedMessage(manager: bool, message: string, parse: string -> Option<Json>)
    ensures RouteMessage(manager, message, parse) ==
      match Routed(message, parse)
      case None => Outcome(manager, [], false)
      case Some(d) => RouteData(manager, d)
  {
  }

  lemma MessageShaped(manager: bool, msg: string, parse: string -> Option<Json>)
    ensures WellShaped(manager, RouteMessage(manager, msg, parse))
  {
    RoutedMessage(manager, msg, parse);
    var d := Routed(msg, parse);
    if d.Some? {
      RouteDataShaped(manager, d.value);
    } else {
      assert WellShaped(manager, Outcome(manager, [], false));
    }
  }

  function CountCreates(acts: seq<Action>): nat {
    if acts == [] then 0 else CountCreates(acts[..|acts| - 1]) + if acts[|acts| - 1].CreateManager? then 1 else 0
  }

  lemma {:induction false} CountAppend(a: seq<Action>, b: seq<Action>)
    ensures CountCreates(a + b) == CountCreates(a) + CountCreates(b)
    decreases |b|
  {
    if b == [] {
      assert a + b == a;
    } else {
      assert (a + b)[..|a + b| - 1] == a + b[..|b| - 1];
      CountAppend(a, b[..|b| - 1]);
    }
  }

  lemma {:induction false} CountNone(a: seq<Action>)
    requires forall k :: 0 <= k < |a| ==> !a[k].CreateManager?
    ensures CountCreates(a) == 0
    decreases |a|
  {
    if a != [] {
      CountNone(a[..|a| - 1]);
    }
  }

  lemma CountOne(a: seq<Action>)
    requires forall k :: 0 < k < |a| ==> !a[k].CreateManager?
    ensures CountCreates(a) <= 1
  {
    if a != [] {
      assert a == [a[0]] + a[1..];
      CountNone(a[1..]);
      CountAppend([a[0]], a[1..]);
      assert CountCreates([a[0]]) <= 1 by { assert [a[0]][..0] == []; }
    }
  }

  /**
   * Over a whole connection the manager is created at most once, and,
   * with an open manager, the loop never creates another.
   */
  lemma {:induction false} AtMostOneManager(manager: bool, msgs: seq<string>, parse: string -> Option<Json>)
    ensures CountCreates(RouteAll(manager, msgs, parse).1) <= (if manager then 0 else 1)
    decreases |msgs|
  {
    if msgs != [] {
      var o := RouteMessage(manager, msgs[0], parse);
      MessageShaped(manager, msgs[0], parse);
      if o.stop {
        if manager { CountNone(o.actions); } else { CountOne(o.actions); }
      } else {
        AtMostOneManager(o.manager, msgs[1..], parse);
        var r := RouteAll(o.manager, msgs[1..], parse);
        CountAppend(o.actions, r.1);
        if manager {
          CountNone(o.actions);
        } else if o.manager {
          CountOne(o.actions);
        } else {
          CountNone(o.actions);
        }
      }
    }
  }

  /** `json.dumps({"status": "healthy"})`, with the default `": "` separator. */
  const HealthyBody: string := "{\"status\": \"healthy\"}"

  /** The health handler's answer: a status and, on success, the JSON body. */
  function Health(path: string): (r: (int, Option<string>))
    ensures r.0 == 200 <==> path == "/health" || path == "/"
    ensures r.0 == 200 || r.0 == 404
    ensures r.1.Some? <==> r.0 == 200
    ensures r.0 == 200 ==> r.1 == Some(HealthyBody)
  {
    if path == "/health" || path == "/" then (200, Some(HealthyBody)) else (404, None)
  }
}
