/** What a call does to the tables between its reads and its answer, event by event: the
    GetResource calls it enters and leaves, and the outputs they store.
    Sources: core/read.go, internal/store/postgres/resource_store.go. */
module Traces {
  import opened Text
  import opened Resources

  function Top(stack: seq<Resource>): Resource
    requires stack != []
  {
    stack[|stack| - 1]
  }

  function Pop(stack: seq<Resource>): seq<Resource>
    requires stack != []
  {
    stack[..|stack| - 1]
  }

  /** Where a call is: the copies its nested GetResource calls hold, outermost first, and those
      they have answered with. */
  datatype Point = Point(table: Table, now: int, stack: seq<Resource>, resolved: set<Resource>)

  datatype Event = Waited(now: int) | Entered(key: string) | Stored(output: Blob) | Left

  /** None where the event is not possible. The lowest `base` frames store nothing. */
  function After(x: Point, e: Event, base: nat): Option<Point> {
    match e
    case Waited(now) =>
      if x.now <= now then Some(x.(now := now)) else None
    case Entered(key) =>
      if x.stack != [] && key in Top(x.stack).deps && Top(x.stack).deps[key] in x.table.rows then
        Some(x.(stack := x.stack + [x.table.rows[Top(x.stack).deps[key]].res]))
      else None
    case Stored(output) =>
      if |x.stack| <= base then None else
      var r := Top(x.stack).(state := Top(x.stack).state.(output := output));
      var t := Update(x.table, r, x.now, false, "");
      if t.Ok? then Some(x.(table := t.value, stack := Pop(x.stack) + [r])) else None
    case Left =>
      if |x.stack| < 2 then None
      else Some(x.(stack := Pop(x.stack), resolved := x.resolved + {Top(x.stack)}))
  }

  function Play(x: Point, events: seq<Event>, base: nat): Option<Point> {
    if events == [] then Some(x)
    else
      match Play(x, events[..|events| - 1], base)
      case None => None
      case Some(y) => After(y, events[|events| - 1], base)
  }

  lemma PlayNext(x: Point, events: seq<Event>, e: Event, base: nat)
    requires Play(x, events, base).Some?
    ensures Play(x, events + [e], base) == After(Play(x, events, base).value, e, base)
  {
    assert (events + [e])[..|events|] == events;
  }

  lemma {:induction false} PlayOn(x: Point, events: seq<Event>, more: seq<Event>, base: nat)
    requires Play(x, events, base).Some?
    ensures Play(x, events + more, base) == Play(Play(x, events, base).value, more, base)
  {
    hide After;
    if more == [] {
      assert events + more == events;
    } else {
      PlayOn(x, events, more[..|more| - 1], base);
      assert (events + more)[..|events + more| - 1] == events + more[..|more| - 1];
    }
  }

  /** What plays with some frames barred from storing plays with fewer barred. */
  lemma {:induction false} PlayFreely(x: Point, events: seq<Event>, base: nat)
    requires Play(x, events, base).Some?
    ensures Play(x, events, 0) == Play(x, events, base)
  {
    if events != [] {
      PlayFreely(x, events[..|events| - 1], base);
    }
  }

  /** y above other frames and other answers. */
  function Above(below: seq<Resource>, resolved: set<Resource>, y: Point): Point {
    y.(stack := below + y.stack, resolved := resolved + y.resolved)
  }

  lemma AfterAbove(below: seq<Resource>, resolved: set<Resource>, x: Point, e: Event)
    requires After(x, e, 0).Some? && x.stack != []
    ensures After(x, e, 0).value.stack != []
    ensures After(Above(below, resolved, x), e, |below|) == Some(Above(below, resolved, After(x, e, 0).value))
  {
    hide Update;
    var z := Above(below, resolved, x);
    assert Top(z.stack) == Top(x.stack) && Pop(z.stack) == below + Pop(x.stack);
    match e {
      case Waited(_) =>
      case Entered(key) => assert below + (x.stack + [x.table.rows[Top(x.stack).deps[key]].res]) == z.stack + [x.table.rows[Top(x.stack).deps[key]].res];
      case Stored(output) =>
        var r := Top(x.stack).(state := Top(x.stack).state.(output := output));
        assert below + (Pop(x.stack) + [r]) == Pop(z.stack) + [r];
      case Left => assert resolved + (x.resolved + {Top(x.stack)}) == z.resolved + {Top(z.stack)};
    }
  }

  /** A call plays the same inside another one. */
  lemma {:induction false} PlayAbove(below: seq<Resource>, resolved: set<Resource>, x: Point, events: seq<Event>)
    requires Play(x, events, 0).Some? && x.stack != []
    ensures Play(x, events, 0).value.stack != []
    ensures Play(Above(below, resolved, x), events, |below|) == Some(Above(below, resolved, Play(x, events, 0).value))
  {
    hide After, Above;
    if events != [] {
      PlayAbove(below, resolved, x, events[..|events| - 1]);
      AfterAbove(below, resolved, Play(x, events[..|events| - 1], 0).value, events[|events| - 1]);
    }
  }

  /** The answered copy of d can be used for res. */
  ghost predicate Accepts(resolved: set<Resource>, res: Resource, d: Urn) {
    exists s :: s in resolved && s.urn == d && s.state.status == Completed && s.project == res.project
  }

  /** A call for res that has come to the tables t, and back to its own frame. */
  predicate Stands(y: Option<Point>, t: Table, now: int, res: Resource) {
    y.Some? && y.value.table == t && y.value.now == now && y.value.stack == [res]
  }

  /** A call that has come to the tables t, at whatever depth. */
  predicate Reached(y: Option<Point>, t: Table, now: int) { y.Some? && y.value.table == t && y.value.now == now }

  function Outset(t: Table, now: int, res: Resource): Point { Point(t, now, [res], {}) }

  /** The trace of a call for res that goes on to a nested call for its dependency under key. */
  function Into(events: seq<Event>, key: string, nested: seq<Event>): seq<Event> { events + [Entered(key)] + nested }

  /** A nested call, left as it stands. */
  lemma PlayInto(x: Point, events: seq<Event>, res: Resource, t: Table, now: int, key: string, nested: seq<Event>, t': Table, now': int)
    requires Stands(Play(x, events, 1), t, now, res)
    requires key in res.deps && res.deps[key] in t.rows
    requires Reached(Play(Outset(t, now, t.rows[res.deps[key]].res), nested, 0), t', now')
    ensures var y := Play(x, Into(events, key, nested), 1);
      var inner := Play(Outset(t, now, t.rows[res.deps[key]].res), nested, 0).value;
      Reached(y, t', now') && y.value.stack == [res] + inner.stack && y.value.resolved == Play(x, events, 1).value.resolved + inner.resolved
  {
    hide Play;
    var here := Play(x, events, 1).value;
    var dep := t.rows[res.deps[key]].res;
    PlayNext(x, events, Entered(key), 1);
    assert here.stack + [dep] == [res] + [dep] && here.resolved + {} == here.resolved;
    assert After(here, Entered(key), 1) == Some(Above([res], here.resolved, Outset(t, now, dep)));
    PlayOn(x, events + [Entered(key)], nested, 1);
    PlayAbove([res], here.resolved, Outset(t, now, dep), nested);
  }

  /** A nested call that has answered. */
  lemma PlayThrough(x: Point, events: seq<Event>, res: Resource, t: Table, now: int, key: string, nested: seq<Event>, t': Table, now': int, dep: Resource)
    requires Stands(Play(x, events, 1), t, now, res)
    requires key in res.deps && res.deps[key] in t.rows
    requires Stands(Play(Outset(t, now, t.rows[res.deps[key]].res), nested, 0), t', now', dep)
    ensures var y := Play(x, Into(events, key, nested) + [Left], 1);
      Stands(y, t', now', res) && Play(x, events, 1).value.resolved + {dep} <= y.value.resolved
  {
    hide Play;
    PlayInto(x, events, res, t, now, key, nested, t', now');
    PlayNext(x, Into(events, key, nested), Left, 1);
    var y := Play(x, Into(events, key, nested), 1).value;
    assert y.stack == [res, dep];
    assert Pop(y.stack) == [res];
  }

  /** A call for res that is back at its own frame with usable answers for the dependencies
      under `keys`. */
  ghost predicate Gathered(y: Option<Point>, t: Table, now: int, res: Resource, keys: set<string>) {
    Stands(y, t, now, res) && forall k :: k in keys && k in res.deps ==> Accepts(y.value.resolved, res, res.deps[k])
  }

  lemma AcceptsMore(resolved: set<Resource>, more: set<Resource>, res: Resource, d: Urn)
    requires Accepts(resolved, res, d) && resolved <= more
    ensures Accepts(more, res, d)
  {
  }

  lemma GatherMore(x: Point, events: seq<Event>, res: Resource, keys: set<string>, t: Table, now: int, key: string, nested: seq<Event>, t': Table, now': int, dep: Resource)
    requires Gathered(Play(x, events, 1), t, now, res, keys)
    requires key in res.deps && res.deps[key] in t.rows
    requires Stands(Play(Outset(t, now, t.rows[res.deps[key]].res), nested, 0), t', now', dep)
    requires dep.urn == res.deps[key] && dep.state.status == Completed && dep.project == res.project
    ensures Gathered(Play(x, Into(events, key, nested) + [Left], 1), t', now', res, keys + {key})
  {
    hide Play, Accepts, Into;
    PlayThrough(x, events, res, t, now, key, nested, t', now', dep);
    var was, more := Play(x, events, 1).value.resolved, Play(x, Into(events, key, nested) + [Left], 1).value.resolved;
    forall k | k in keys + {key} && k in res.deps ensures Accepts(more, res, res.deps[k]) {
      if k == key {
        DepAccepted(more, res, dep);
      } else {
        AcceptsMore(was, more, res, res.deps[k]);
      }
    }
  }

  lemma DepAccepted(resolved: set<Resource>, res: Resource, dep: Resource)
    requires dep in resolved && dep.state.status == Completed && dep.project == res.project
    ensures Accepts(resolved, res, dep.urn)
  {
  }

  lemma PlayNothing(x: Point, base: nat)
    ensures Play(x, [], base) == Some(x)
  {
  }

  lemma PlayWaits(x: Point, events: seq<Event>, base: nat, t: Table, was: int, now: int)
    requires Reached(Play(x, events, base), t, was) && was <= now
    ensures var y, z := Play(x, events, base).value, Play(x, events + [Waited(now)], base);
      Reached(z, t, now) && z.value.stack == y.stack && z.value.resolved == y.resolved
  {
    PlayNext(x, events, Waited(now), base);
  }

  lemma GatheredLater(y: Option<Point>, z: Option<Point>, t: Table, was: int, now: int, res: Resource, keys: set<string>)
    requires Gathered(y, t, was, res, keys) && Reached(z, t, now) && z.value.stack == y.value.stack
    requires y.value.resolved <= z.value.resolved
    ensures Gathered(z, t, now, res, keys)
  {
    hide Accepts;
    forall k | k in keys && k in res.deps { AcceptsMore(y.value.resolved, z.value.resolved, res, res.deps[k]); }
  }

  /** The write-back at the end of a call. */
  lemma PlayStores(x: Point, events: seq<Event>, t: Table, was: int, res: Resource, output: Blob, now: int, t': Table)
    requires Stands(Play(x, events, 0), t, was, res) && was <= now
    requires Update(t, res.(state := res.state.(output := output)), now, false, "") == Ok(t')
    ensures Stands(Play(x, events + [Waited(now)] + [Stored(output)], 0), t', now, res.(state := res.state.(output := output)))
  {
    hide Play, Update;
    PlayWaits(x, events, 0, t, was, now);
    PlayNext(x, events + [Waited(now)], Stored(output), 0);
  }

  /** One call after another on the same copy. */
  lemma PlayThen(x: Point, events: seq<Event>, t: Table, now: int, res: Resource, more: seq<Event>, t': Table, now': int)
    requires Stands(Play(x, events, 0), t, now, res)
    requires Reached(Play(Outset(t, now, res), more, 1), t', now')
    ensures var y, z := Play(x, events + more, 0), Play(Outset(t, now, res), more, 1).value;
      Reached(y, t', now') && y.value.stack == z.stack && z.resolved <= y.value.resolved
  {
    hide Play;
    var here := Play(x, events, 0).value;
    PlayOn(x, events, more, 0);
    PlayFreely(Outset(t, now, res), more, 1);
    PlayAbove([], here.resolved, Outset(t, now, res), more);
    var z := Play(Outset(t, now, res), more, 0).value;
    assert [] + z.stack == z.stack && [] + [res] == [res] && here.resolved + {} == here.resolved;
    assert Above([], here.resolved, Outset(t, now, res)) == here;
  }
}
