/**
 * Translation of one script-authored spawn table into a body-creation
 * request (`process_lua_shape`): required keys, fixed defaults for the
 * optional ones, lenient status matching and shape dispatch.
 */
module Spawn {
  import opened Wrappers
  import opened LuaValue

  datatype Status = Static | Kinematic | Dynamic

  /** Shape and its dimensions as given in the table (`w`, `h` or `r`). */
  datatype ShapeInfo = Rectangle(w: real, h: real) | Circle(r: real)

  datatype Rgba = Rgba(r: Byte, g: Byte, b: Byte, a: Byte)

  /** Opaque white, the colour of a table without `color`. */
  const White: Rgba := Rgba(255, 255, 255, 255)

  /** A validated creation request (the fields of the `BodyBuilder`). */
  datatype SpawnSpec = SpawnSpec(
    shape: ShapeInfo,
    x: real, y: real,
    rotation: real,
    xVel: real, yVel: real,
    rotVel: real,
    mass: real,
    elasticity: real,
    friction: real,
    status: Status,
    name: Option<string>,
    color: Rgba)

  /** Why a table is refused; in the source each of these is a panic. */
  datatype SpawnError =
    | BadField(key: string)       // a required key is absent or not of the required type
    | BadColor(channel: string)   // a `color` table whose `r`, `g` or `b` is not a byte
    | InvalidShape(kind: string)  // `shape` names neither a rectangle nor a circle

  datatype ShapeKind = RectKind | CircleKind

  const DefaultMass: real := 1.0
  const DefaultElasticity: real := 0.2
  const DefaultFriction: real := 0.5

  /** A required number (`shape.get(key).unwrap()`). */
  function Required(t: map<string, Value>, key: string): (r: Result<real, SpawnError>)
    ensures r.Ok? <==> Get(t, key).Num?
    ensures r.Ok? ==> r.value == Get(t, key).x
    ensures r.Err? ==> r.error == BadField(key)
  {
    match ToNumber(Get(t, key))
    case Some(x) => Ok(x)
    case None => Err(BadField(key))
  }

  /** An optional number (`shape.get(key).unwrap_or(default)`). */
  function NumberOr(t: map<string, Value>, key: string, default: real): real {
    ToNumber(Get(t, key)).GetOr(default)
  }

  /** The `status` match, after lower-casing; anything unrecognised is dynamic. */
  function StatusOf(text: string): Status {
    var l := Lower(text);
    if l == "static" then Static
    else if l == "kinematic" then Kinematic
    else Dynamic
  }

  /** The `shape` match, after lower-casing. */
  function KindOf(ty: string): Option<ShapeKind> {
    var l := Lower(ty);
    if l == "rectangle" || l == "rect" then Some(RectKind)
    else if l == "circle" then Some(CircleKind)
    else None
  }

  function Channel(c: map<string, Value>, key: string): Result<Byte, SpawnError> {
    match ToByte(Get(c, key))
    case Some(v) => Ok(v)
    case None => Err(BadColor(key))
  }

  /** `color`: white unless it is a table; then `r`, `g`, `b` are required and `a` defaults to 255. */
  function ColorOf(t: map<string, Value>): Result<Rgba, SpawnError> {
    match ToTable(Get(t, "color"))
    case None => Ok(White)
    case Some(c) =>
      var r :- Channel(c, "r");
      var g :- Channel(c, "g");
      var b :- Channel(c, "b");
      Ok(Rgba(r, g, b, ToByte(Get(c, "a")).GetOr(255)))
  }

  function ShapeOf(t: map<string, Value>, ty: string): Result<ShapeInfo, SpawnError> {
    match KindOf(ty)
    case Some(RectKind) =>
      var w :- Required(t, "w");
      var h :- Required(t, "h");
      Ok(Rectangle(w, h))
    case Some(CircleKind) =>
      var r :- Required(t, "r");
      Ok(Circle(r))
    case None => Err(InvalidShape(ty))
  }

  /**
   * `process_lua_shape`, with the source's order of failures: `shape`, `x`,
   * `y`, the colour channels, an unknown shape kind, then the dimensions.
   */
  function ProcessShape(t: map<string, Value>): Result<SpawnSpec, SpawnError> {
    var ty :- match ToText(Get(t, "shape")) {
      case Some(s) => Ok(s)
      case None => Err(BadField("shape"))
    };
    var x :- Required(t, "x");
    var y :- Required(t, "y");
    var color :- ColorOf(t);
    var status := StatusOf(ToText(Get(t, "status")).GetOr("dynamic"));
    var shape :- ShapeOf(t, ty);
    Ok(SpawnSpec(
      shape, x, y,
      NumberOr(t, "rotation", 0.0),
      NumberOr(t, "x_vel", 0.0), NumberOr(t, "y_vel", 0.0),
      NumberOr(t, "rotvel", 0.0),
      NumberOr(t, "mass", DefaultMass),
      NumberOr(t, "elasticity", DefaultElasticity),
      NumberOr(t, "friction", DefaultFriction),
      status,
      ToText(Get(t, "name")),
      color))
  }

  /** The colour part of a table is acceptable. */
  ghost predicate ColorAcceptable(t: map<string, Value>) {
    var c := Get(t, "color");
    c.Table? ==>
      forall k :: k in ["r", "g", "b"] ==> var v := Get(c.fields, k); v.Num? && -1.0 < v.x < 256.0
  }

  /** A table `process_lua_shape` accepts, stated key by key. */
  ghost predicate Acceptable(t: map<string, Value>) {
    && Get(t, "shape").Str?
    && Get(t, "x").Num? && Get(t, "y").Num?
    && ColorAcceptable(t)
    && (var l := Lower(Get(t, "shape").s);
        l == "rectangle" || l == "rect" || l == "circle")
    && (Lower(Get(t, "shape").s) == "circle" ==> Get(t, "r").Num?)
    && (Lower(Get(t, "shape").s) != "circle" ==> Get(t, "w").Num? && Get(t, "h").Num?)
  }

  /** A table is turned into a request exactly when it is acceptable. */
  lemma AcceptedIff(t: map<string, Value>)
    ensures ProcessShape(t).Ok? <==> Acceptable(t)
  {
    var c := Get(t, "color");
    if c.Table? {
      assert ColorAcceptable(t) <==>
        (ToByte(Get(c.fields, "r")).Some? && ToByte(Get(c.fields, "g")).Some? && ToByte(Get(c.fields, "b")).Some?) by {
        assert "r" in ["r", "g", "b"] && "g" in ["r", "g", "b"] && "b" in ["r", "g", "b"];
      }
    }
  }

  /** The value an optional number takes: its own when it is a number, the default otherwise. */
  ghost function Optional(t: map<string, Value>, key: string, default: real): real {
    if key in t && t[key].Num? then t[key].x else default
  }

  /** Optional keys that are absent or not numbers take the documented defaults. */
  lemma OptionalDefaults(t: map<string, Value>)
    requires ProcessShape(t).Ok?
    ensures var s := ProcessShape(t).value;
      && s.mass == Optional(t, "mass", 1.0)
      && s.xVel == Optional(t, "x_vel", 0.0)
      && s.yVel == Optional(t, "y_vel", 0.0)
      && s.rotVel == Optional(t, "rotvel", 0.0)
      && s.rotation == Optional(t, "rotation", 0.0)
      && s.elasticity == Optional(t, "elasticity", 0.2)
      && s.friction == Optional(t, "friction", 0.5)
      && s.x == t["x"].x && s.y == t["y"].x
      && (s.name.Some? <==> "name" in t && t["name"].Str?)
      && (s.name.Some? ==> s.name.value == t["name"].s)
  {
  }

  /** Status: absent or not a string means dynamic; otherwise a case-insensitive match with a dynamic fallback. */
  lemma StatusRule(t: map<string, Value>)
    requires ProcessShape(t).Ok?
    ensures var st := ProcessShape(t).value.status;
      && (!Get(t, "status").Str? ==> st == Dynamic)
      && (Get(t, "status").Str? ==>
            && (st == Static <==> Lower(Get(t, "status").s) == "static")
            && (st == Kinematic <==> Lower(Get(t, "status").s) == "kinematic"))
  {
  }

  /** The status match ignores the case of letters. */
  lemma StatusIgnoresCase(text: string)
    ensures StatusOf(text) == StatusOf(Lower(text))
  {
    LowerIdempotent(text);
  }

  /** The status never makes a table fail: changing it changes only the status of the request. */
  lemma StatusNeverFails(t: map<string, Value>, v: Value)
    ensures var u := t["status" := v];
      && (ProcessShape(u).Ok? <==> ProcessShape(t).Ok?)
      && (ProcessShape(u).Ok? ==>
            ProcessShape(u).value == ProcessShape(t).value.(status := ProcessShape(u).value.status))
      && (ProcessShape(u).Err? ==> ProcessShape(u).error == ProcessShape(t).error)
  {
    var u := t["status" := v];
    assert Get(u, "shape") == Get(t, "shape") && Get(u, "x") == Get(t, "x") && Get(u, "y") == Get(t, "y");
    assert Get(u, "color") == Get(t, "color") && Get(u, "name") == Get(t, "name");
    assert Get(u, "w") == Get(t, "w") && Get(u, "h") == Get(t, "h") && Get(u, "r") == Get(t, "r");
    assert Get(u, "mass") == Get(t, "mass") && Get(u, "rotation") == Get(t, "rotation");
    assert Get(u, "x_vel") == Get(t, "x_vel") && Get(u, "y_vel") == Get(t, "y_vel");
    assert Get(u, "rotvel") == Get(t, "rotvel");
    assert Get(u, "elasticity") == Get(t, "elasticity") && Get(u, "friction") == Get(t, "friction");
    assert ColorOf(u) == ColorOf(t);
    assert forall ty :: ShapeOf(u, ty) == ShapeOf(t, ty);
  }

  /** Shape dispatch: the kind follows the lower-cased `shape`, and the dimensions are the table's. */
  lemma ShapeRule(t: map<string, Value>)
    requires ProcessShape(t).Ok?
    ensures var s := ProcessShape(t).value; var l := Lower(t["shape"].s);
      && (s.shape.Circle? <==> l == "circle")
      && (s.shape.Rectangle? <==> l == "rectangle" || l == "rect")
      && (s.shape.Circle? ==> s.shape.r == t["r"].x)
      && (s.shape.Rectangle? ==> s.shape.w == t["w"].x && s.shape.h == t["h"].x)
  {
  }

  /** Failures: a missing `shape`, `x` or `y`, and an unknown kind, each with its own error. */
  lemma Failures(t: map<string, Value>)
    ensures !Get(t, "shape").Str? ==> ProcessShape(t) == Err(BadField("shape"))
    ensures Get(t, "shape").Str? && !Get(t, "x").Num? ==> ProcessShape(t) == Err(BadField("x"))
    ensures Get(t, "shape").Str? && Get(t, "x").Num? && !Get(t, "y").Num? ==> ProcessShape(t) == Err(BadField("y"))
    ensures (Get(t, "shape").Str? && Get(t, "x").Num? && Get(t, "y").Num? && ColorOf(t).Ok?
             && KindOf(Get(t, "shape").s).None?)
            ==> ProcessShape(t) == Err(InvalidShape(Get(t, "shape").s))
  {
  }

  /** Colour: white without a `color` table; otherwise the given channels, alpha defaulting to 255. */
  lemma ColorRule(t: map<string, Value>)
    requires ProcessShape(t).Ok?
    ensures var col := ProcessShape(t).value.color;
      && (!Get(t, "color").Table? ==> col == White)
      && (Get(t, "color").Table? ==>
            var c := Get(t, "color").fields;
            && col.r == ToByte(Get(c, "r")).value
            && col.g == ToByte(Get(c, "g")).value
            && col.b == ToByte(Get(c, "b")).value
            && col.a == (if ToByte(Get(c, "a")).Some? then ToByte(Get(c, "a")).value else 255))
  {
  }

  /** `{shape = "circle", x = 1.0, y = 2.0, r = 0.5}` becomes a default dynamic white circle. */
  lemma CircleScenario()
    ensures ProcessShape(map["shape" := Str("circle"), "x" := Num(1.0), "y" := Num(2.0), "r" := Num(0.5)])
      == Ok(SpawnSpec(Circle(0.5), 1.0, 2.0, 0.0, 0.0, 0.0, 0.0, 1.0, 0.2, 0.5, Dynamic, None, White))
  {
  }

  /** The code checks no range: a negative width is accepted as given. */
  lemma NegativeWidthAccepted()
    ensures ProcessShape(map["shape" := Str("rect"), "x" := Num(0.0), "y" := Num(0.0), "w" := Num(-1.0), "h" := Num(2.0)]).Ok?
  {
  }
}
