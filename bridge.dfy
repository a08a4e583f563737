/**
 * The bridge between the Lua globals and the host simulation: the Lua-side
 * `add_shape`/`add_shapes` helpers, the initial globals, batch creation
 * (`process_lua_shapes`), draining the queue after a file load, and the
 * per-frame sync (`lua_update`).
 */
module Bridge {
  import opened Wrappers
  import opened LuaValue
  import opened Spawn

  /** `std::f32::consts::PI`, widened to a Lua number. */
  const PiF32: real := 3.1415927410125732421875

  /** The globals `new_lua_res` sets before any script runs. */
  function InitialGlobals(screenX: real, screenY: real): map<string, Value> {
    map[
      "shapes" := List([]),
      "PAUSED" := Bool(false),
      "GRAVITY" := Num(9.81),
      "PI" := Num(PiF32),
      "SCREEN_X" := Num(screenX),
      "SCREEN_Y" := Num(screenY)]
  }

  /** `shapes[#shapes+1] = v` on a table: assigning nil to a fresh key stores nothing. */
  function AppendItem(t: Value, v: Value): (r: Value)
    requires t.Table?
    ensures r.Table? && r.fields == t.fields
    ensures r.items == if v == Nil then t.items else t.items + [v]
  {
    if v == Nil then t else Table(t.fields, t.items + [v])
  }

  /** What the host records: one creation command per body, and `world.maintain()` calls. */
  datatype HostEvent = Create(spec: SpawnSpec) | Maintain

  function Creates(specs: seq<SpawnSpec>): (r: seq<HostEvent>)
    ensures |r| == |specs|
    ensures forall i :: 0 <= i < |specs| ==> r[i] == Create(specs[i])
  {
    seq(|specs|, i requires 0 <= i < |specs| => Create(specs[i]))
  }

  /** The requests of the leading tables that translate, up to the first that does not. */
  function Accepted(tables: seq<map<string, Value>>): seq<SpawnSpec> {
    if tables == [] || ProcessShape(tables[0]).Err? then []
    else [ProcessShape(tables[0]).value] + Accepted(tables[1..])
  }

  /** The first table that fails to translate, if any. */
  function FirstFailure(tables: seq<map<string, Value>>): Option<SpawnError> {
    if tables == [] then None
    else if ProcessShape(tables[0]).Err? then Some(ProcessShape(tables[0]).error)
    else FirstFailure(tables[1..])
  }

  /** What `process_lua_shapes` records: the requests in order, then one maintain; a failure stops it. */
  function BatchLog(tables: seq<map<string, Value>>): seq<HostEvent> {
    Creates(Accepted(tables)) + if FirstFailure(tables).None? then [Maintain] else []
  }

  /** When every table translates, the batch creates one body per table, in input order. */
  lemma {:induction false} AcceptedAll(tables: seq<map<string, Value>>)
    requires forall i :: 0 <= i < |tables| ==> ProcessShape(tables[i]).Ok?
    ensures FirstFailure(tables).None?
    ensures |Accepted(tables)| == |tables|
    ensures forall i :: 0 <= i < |tables| ==> Accepted(tables)[i] == ProcessShape(tables[i]).value
  {
    if tables != [] {
      AcceptedAll(tables[1..]);
      assert forall i :: 1 <= i < |tables| ==> tables[1..][i - 1] == tables[i];
    }
  }

  /** A failure stops the batch at the first bad table: only the tables before it are created. */
  lemma {:induction false} AcceptedStopsAtFailure(tables: seq<map<string, Value>>, k: nat)
    requires k < |tables| && ProcessShape(tables[k]).Err?
    requires forall i :: 0 <= i < k ==> ProcessShape(tables[i]).Ok?
    ensures FirstFailure(tables) == Some(ProcessShape(tables[k]).error)
    ensures |Accepted(tables)| == k
    ensures forall i :: 0 <= i < k ==> Accepted(tables)[i] == ProcessShape(tables[i]).value
  {
    if k > 0 {
      AcceptedStopsAtFailure(tables[1..], k - 1);
      assert forall i :: 1 <= i < k ==> tables[1..][i - 1] == tables[i];
    }
  }

  /** The batch log of tables whose prefix translates to `specs` and whose next table fails. */
  lemma BatchStopped(tables: seq<map<string, Value>>, specs: seq<SpawnSpec>)
    requires |specs| < |tables| && ProcessShape(tables[|specs|]).Err?
    requires forall j :: 0 <= j < |specs| ==> ProcessShape(tables[j]) == Ok(specs[j])
    ensures FirstFailure(tables) == Some(ProcessShape(tables[|specs|]).error)
    ensures BatchLog(tables) == Creates(specs)
  {
    AcceptedStopsAtFailure(tables, |specs|);
    assert Accepted(tables) == specs;
  }

  /** The batch log of tables that all translate, to `specs`. */
  lemma BatchCompleted(tables: seq<map<string, Value>>, specs: seq<SpawnSpec>)
    requires |specs| == |tables|
    requires forall j :: 0 <= j < |specs| ==> ProcessShape(tables[j]) == Ok(specs[j])
    ensures FirstFailure(tables) == None
    ensures BatchLog(tables) == Creates(specs) + [Maintain]
  {
    AcceptedAll(tables);
    assert Accepted(tables) == specs;
  }

  lemma CreatesSnoc(specs: seq<SpawnSpec>, s: SpawnSpec)
    ensures Creates(specs + [s]) == Creates(specs) + [Create(s)]
  {
    assert |Creates(specs + [s])| == |Creates(specs) + [Create(s)]|;
  }

  function CountMaintain(log: seq<HostEvent>): nat {
    if log == [] then 0 else (if log[0] == Maintain then 1 else 0) + CountMaintain(log[1..])
  }

  lemma {:induction false} CountMaintainAppend(a: seq<HostEvent>, b: seq<HostEvent>)
    ensures CountMaintain(a + b) == CountMaintain(a) + CountMaintain(b)
  {
    if a != [] {
      assert (a + b)[0] == a[0];
      assert (a + b)[1..] == a[1..] + b;
      CountMaintainAppend(a[1..], b);
    } else {
      assert a + b == b;
    }
  }

  lemma {:induction false} CountMaintainCreates(specs: seq<SpawnSpec>)
    ensures CountMaintain(Creates(specs)) == 0
  {
    if specs != [] {
      assert Creates(specs)[1..] == Creates(specs[1..]);
      CountMaintainCreates(specs[1..]);
    }
  }

  /** A successful batch calls maintain exactly once, after its last creation; a failed one never. */
  lemma MaintainOnce(tables: seq<map<string, Value>>)
    ensures CountMaintain(BatchLog(tables)) == if FirstFailure(tables).None? then 1 else 0
    ensures FirstFailure(tables).None? ==> BatchLog(tables)[|BatchLog(tables)| - 1] == Maintain
  {
    CountMaintainAppend(Creates(Accepted(tables)), if FirstFailure(tables).None? then [Maintain] else []);
    CountMaintainCreates(Accepted(tables));
    assert CountMaintain([Maintain]) == 1 + CountMaintain([]);
  }

  /** Why a per-frame sync or a queue drain stops; in the source each is a panic. */
  datatype DrainError = QueueNotTables | SpawnFailed(e: SpawnError)

  /** The `OBJECTS` table for the named entities, in join order: a later duplicate name wins. */
  function ObjectsOf(named: seq<(string, nat)>): map<string, Value> {
    if named == [] then map[]
    else ObjectsOf(named[..|named| - 1])[named[|named| - 1].0 := Entity(named[|named| - 1].1)]
  }

  function Names(named: seq<(string, nat)>): set<string> {
    set i | 0 <= i < |named| :: named[i].0
  }

  /** The keys of `OBJECTS` are exactly the entity names. */
  lemma {:induction false} ObjectsKeys(named: seq<(string, nat)>)
    ensures ObjectsOf(named).Keys == Names(named)
  {
    if named != [] {
      var init := named[..|named| - 1];
      var last := named[|named| - 1];
      ObjectsKeys(init);
      forall i | 0 <= i < |named| ensures named[i].0 in Names(init) + {last.0} {
        if i < |init| { assert init[i].0 == named[i].0; }
      }
      forall i | 0 <= i < |init| ensures init[i].0 in Names(named) {
        assert named[i] == init[i];
      }
    }
  }

  /** An entity whose name no later entity carries is the one `OBJECTS` binds to that name. */
  lemma {:induction false} ObjectsLastWins(named: seq<(string, nat)>, i: nat)
    requires i < |named|
    requires forall j :: i < j < |named| ==> named[j].0 != named[i].0
    ensures named[i].0 in ObjectsOf(named) && ObjectsOf(named)[named[i].0] == Entity(named[i].1)
  {
    if i < |named| - 1 {
      var init := named[..|named| - 1];
      assert init[i] == named[i];
      ObjectsLastWins(init, i);
    }
  }

  /** `OBJECTS` holds exactly the named entities, each name bound to the last entity carrying it. */
  lemma ObjectsExact(named: seq<(string, nat)>)
    ensures ObjectsOf(named).Keys == Names(named)
    ensures forall i :: 0 <= i < |named| && (forall j :: i < j < |named| ==> named[j].0 != named[i].0) ==>
      ObjectsOf(named)[named[i].0] == Entity(named[i].1)
  {
    ObjectsKeys(named);
    forall i | 0 <= i < |named| && (forall j :: i < j < |named| ==> named[j].0 != named[i].0)
      ensures ObjectsOf(named)[named[i].0] == Entity(named[i].1)
    {
      ObjectsLastWins(named, i);
    }
  }

  /** What the host hands to the per-frame sync. */
  datatype Frame = Frame(
    fps: real,
    dtMillis: nat,
    scaledScreenX: real, scaledScreenY: real,  // `SCREEN_X * scale_fac.x`, computed in f32 by the host
    mouseX: real, mouseY: real,
    named: seq<(string, nat)>)

  /** The globals after `lua_update` has written its outputs. */
  function PushedGlobals(g: map<string, Value>, frame: Frame): map<string, Value> {
    g["ADD_SHAPES" := Bool(false)]
     ["FPS" := Num(frame.fps)]
     ["DT" := Num(frame.dtMillis as real)]
     ["SCREEN_X" := Num(frame.scaledScreenX)]
     ["SCREEN_Y" := Num(frame.scaledScreenY)]
     ["OBJECTS" := Table(ObjectsOf(frame.named), [])]
     ["MOUSE_X" := Num(frame.mouseX)]
     ["MOUSE_Y" := Num(frame.mouseY)]
     ["shapes" := List([])]
  }

  /** The names `lua_update` writes. */
  const Pushed: set<string> :=
    {"ADD_SHAPES", "FPS", "DT", "SCREEN_X", "SCREEN_Y", "OBJECTS", "MOUSE_X", "MOUSE_Y", "shapes"}

  /** After a sync `ADD_SHAPES` is false, the queue is empty, `OBJECTS` is rebuilt; other globals keep their values. */
  lemma PushedGlobalsFacts(g: map<string, Value>, frame: Frame)
    ensures var p := PushedGlobals(g, frame);
      && Get(p, "ADD_SHAPES") == Bool(false)
      && Get(p, "shapes") == List([])
      && Get(p, "OBJECTS") == Table(ObjectsOf(frame.named), [])
      && Get(p, "FPS") == Num(frame.fps)
      && Get(p, "MOUSE_X") == Num(frame.mouseX) && Get(p, "MOUSE_Y") == Num(frame.mouseY)
      && p.Keys == g.Keys + Pushed
      && forall k :: k !in Pushed ==> Get(p, k) == Get(g, k)
  {
  }

  /** The script-side state: the Lua globals table. */
  class Runtime {
    var globals: map<string, Value>

    /** `new_lua_res`; the screen size is the host's constant. */
    constructor (screenX: real, screenY: real)
      ensures globals == InitialGlobals(screenX, screenY)
    {
      globals := InitialGlobals(screenX, screenY);
    }

    /** The Lua `add_shape(shape)`; it fails when `shapes` is not a table. */
    method AddShape(shape: Value) returns (ok: bool)
      modifies this
      ensures ok == Get(old(globals), "shapes").Table?
      ensures ok ==> globals == old(globals)["shapes" := AppendItem(Get(old(globals), "shapes"), shape)]
      ensures !ok ==> globals == old(globals)
    {
      var q := Get(globals, "shapes");
      if !q.Table? {
        return false;
      }
      globals := globals["shapes" := AppendItem(q, shape)];
      return true;
    }

    /** The Lua `add_shapes(...)`: `add_shape` on each argument before the first nil. */
    method AddShapes(args: seq<Value>) returns (ok: bool)
      modifies this
      ensures ok == (BeforeNil(args) == [] || Get(old(globals), "shapes").Table?)
      ensures ok && BeforeNil(args) != [] ==>
        globals == old(globals)["shapes" := Table(Get(old(globals), "shapes").fields,
                                                  Get(old(globals), "shapes").items + BeforeNil(args))]
      ensures !ok || BeforeNil(args) == [] ==> globals == old(globals)
    {
      var xs := BeforeNil(args);
      var i := 0;
      ok := true;
      while i < |xs|
        invariant 0 <= i <= |xs|
        invariant i == 0 ==> globals == old(globals)
        invariant i > 0 ==> Get(old(globals), "shapes").Table?
        invariant i > 0 ==> globals == old(globals)["shapes" := Table(Get(old(globals), "shapes").fields,
                                                                      Get(old(globals), "shapes").items + xs[..i])]
      {
        ghost var before := globals;
        ok := AddShape(xs[i]);
        if !ok {
          return;
        }
        assert xs[..i + 1] == xs[..i] + [xs[i]];
        assert xs[i] != Nil;
        assert Get(before, "shapes").items + [xs[i]] == Get(old(globals), "shapes").items + xs[..i + 1];
        i := i + 1;
      }
      assert xs[..i] == xs;
    }

    /** The writes that end `lua_update`, in the source's order. */
    method PushFrame(frame: Frame)
      modifies this
      ensures globals == PushedGlobals(old(globals), frame)
    {
      globals := globals["ADD_SHAPES" := Bool(false)];
      globals := globals["FPS" := Num(frame.fps)];
      globals := globals["DT" := Num(frame.dtMillis as real)];
      globals := globals["SCREEN_X" := Num(frame.scaledScreenX)];
      globals := globals["SCREEN_Y" := Num(frame.scaledScreenY)];

      var objects: map<string, Value> := map[];
      var i := 0;
      ghost var written := globals;
      while i < |frame.named|
        invariant 0 <= i <= |frame.named|
        invariant objects == ObjectsOf(frame.named[..i])
        invariant globals == written
      {
        assert frame.named[..i + 1][..i] == frame.named[..i];
        objects := objects[frame.named[i].0 := Entity(frame.named[i].1)];
        i := i + 1;
      }
      assert frame.named[..i] == frame.named;
      globals := globals["OBJECTS" := Table(objects, [])];

      globals := globals["MOUSE_X" := Num(frame.mouseX)];
      globals := globals["MOUSE_Y" := Num(frame.mouseY)];
      globals := globals["shapes" := List([])];
    }
  }

  /** The host as the bridge sees it: gravity, the pause flag and a record of creations. */
  class MainState {
    var gravity: real
    var paused: bool
    var log: seq<HostEvent>

    constructor (gravity: real, paused: bool)
      ensures this.gravity == gravity && this.paused == paused && log == []
    {
      this.gravity := gravity;
      this.paused := paused;
      log := [];
    }

    /** `process_lua_shapes`: create each table's body in order, then maintain once. */
    method ProcessLuaShapes(tables: seq<map<string, Value>>) returns (r: Option<SpawnError>)
      modifies this`log
      ensures r == FirstFailure(tables)
      ensures log == old(log) + BatchLog(tables)
      ensures gravity == old(gravity) && paused == old(paused)
    {
      var i := 0;
      ghost var specs: seq<SpawnSpec> := [];
      while i < |tables|
        invariant 0 <= i <= |tables| && |specs| == i
        invariant forall j :: 0 <= j < i ==> ProcessShape(tables[j]) == Ok(specs[j])
        invariant log == old(log) + Creates(specs)
      {
        var spec := ProcessShape(tables[i]);
        if spec.Err? {
          BatchStopped(tables, specs);
          return Some(spec.error);
        }
        CreatesSnoc(specs, spec.value);
        log := log + [Create(spec.value)];
        specs := specs + [spec.value];
        i := i + 1;
      }
      BatchCompleted(tables, specs);
      log := log + [Maintain];
      return None;
    }

    /** The drain after `run_lua_file`: create the queued tables, then empty the queue. */
    method AddShapesFromLuaFile(lua: Runtime) returns (r: Option<DrainError>)
      modifies this, lua
      ensures ToTableList(Get(old(lua.globals), "shapes")).None? ==>
        r == Some(QueueNotTables) && log == old(log) && lua.globals == old(lua.globals)
      ensures ToTableList(Get(old(lua.globals), "shapes")).Some? ==>
        var tables := ToTableList(Get(old(lua.globals), "shapes")).value;
        && log == old(log) + BatchLog(tables)
        && (FirstFailure(tables).Some? ==>
              r == Some(SpawnFailed(FirstFailure(tables).value)) && lua.globals == old(lua.globals))
        && (FirstFailure(tables).None? ==>
              r == None && lua.globals == old(lua.globals)["shapes" := List([])])
      ensures gravity == old(gravity) && paused == old(paused)
    {
      var queue := ToTableList(Get(lua.globals, "shapes"));
      if queue.None? {
        return Some(QueueNotTables);
      }
      var failure := ProcessLuaShapes(queue.value);
      if failure.Some? {
        return Some(SpawnFailed(failure.value));
      }
      lua.globals := lua.globals["shapes" := List([])];
      return None;
    }

    /**
     * `lua_update`: if `ADD_SHAPES` reads as true, create the queued tables;
     * read `PAUSED` and `GRAVITY` into the host; then write `ADD_SHAPES`,
     * `FPS`, `DT`, `SCREEN_*`, `OBJECTS`, `MOUSE_*` and the empty queue.
     */
    method LuaUpdate(lua: Runtime, frame: Frame) returns (r: Option<DrainError>)
      modifies this, lua
      ensures var add := ToBool(Get(old(lua.globals), "ADD_SHAPES"));
        var queue := ToTableList(Get(old(lua.globals), "shapes"));
        && (!add ==> log == old(log))
        && (add && queue.None? ==> log == old(log) && r == Some(QueueNotTables))
        && (add && queue.Some? ==> log == old(log) + BatchLog(queue.value))
        && (add && queue.Some? && FirstFailure(queue.value).Some? ==>
              r == Some(SpawnFailed(FirstFailure(queue.value).value)))
      ensures var add := ToBool(Get(old(lua.globals), "ADD_SHAPES"));
        var queue := ToTableList(Get(old(lua.globals), "shapes"));
        var failed := add && (queue.None? || FirstFailure(queue.value).Some?);
        && (failed ==> r.Some? && lua.globals == old(lua.globals) && paused == old(paused) && gravity == old(gravity))
        && (!failed ==> r == None && lua.globals == PushedGlobals(old(lua.globals), frame))
      ensures r == None ==> paused == ToBool(Get(old(lua.globals), "PAUSED"))
      ensures r == None ==> gravity == ToNumber(Get(old(lua.globals), "GRAVITY")).GetOr(old(gravity))
    {
      var g := lua.globals;
      if ToBool(Get(g, "ADD_SHAPES")) {
        var queue := ToTableList(Get(g, "shapes"));
        if queue.None? {
          return Some(QueueNotTables);
        }
        var failure := ProcessLuaShapes(queue.value);
        if failure.Some? {
          return Some(SpawnFailed(failure.value));
        }
      }

      paused := ToBool(Get(g, "PAUSED"));
      var newGravity := ToNumber(Get(g, "GRAVITY"));
      if newGravity.Some? {
        gravity := newGravity.value;
      }

      lua.PushFrame(frame);
      return None;
    }
  }
}
