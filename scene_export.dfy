/**
 * The scene exporter (`export_lua`): one table literal per body, joined by
 * ",\n\t" inside an `add_shapes(...)` call, followed by a `GRAVITY = ...`
 * assignment. Number formatting is left abstract (`Formats`).
 */
module SceneExport {
  import opened Wrappers
  import opened LuaValue
  import Spawn

  /** The collider shape of a body; shapes other than these two cannot be exported. */
  datatype BodyShape = Ball(radius: real) | Cuboid(halfX: real, halfY: real) | OtherShape

  datatype BodyStatus = Static | Dynamic | Kinematic | Disabled

  /** What `export_lua` reads of one body, its collider and its colour. */
  datatype EntitySnapshot = EntitySnapshot(
    shape: BodyShape,
    x: real, y: real,
    rotation: real,
    xVel: real, yVel: real,
    rotVel: real,
    mass: real,
    friction: real,
    restitution: real,
    red: real, green: real, blue: real,
    status: BodyStatus)

  /** The number-to-text conversions: `{:.3}`, `{}`, and `(c * 255.0).round() as usize`. */
  datatype Formats = Formats(fixed3: real -> string, display: real -> string, channel: real -> nat)

  datatype ExportError = UnsupportedShape | UnsupportedStatus

  /** A value in a table literal: a quoted string, a numeral, or the colour sub-table. */
  datatype Piece = Quoted(text: string) | Numeral(text: string) | Channels(r: nat, g: nat, b: nat)

  /** One `key = value` entry of a table literal. */
  datatype Field = Field(key: string, value: Piece)

  const Separator: string := ",\n\t"

  function DigitChar(d: nat): (c: char)
    requires d < 10
    ensures '0' <= c <= '9'
  {
    ('0' as int + d) as char
  }

  /** Decimal text of a natural number, as `{}` prints a `usize`. */
  function Decimal(n: nat): (s: string)
    ensures |s| >= 1
    ensures forall i :: 0 <= i < |s| ==> '0' <= s[i] <= '9'
  {
    if n < 10 then [DigitChar(n)] else Decimal(n / 10) + [DigitChar(n % 10)]
  }

  /** The value of a decimal numeral. */
  function DecimalValue(s: string): nat
    requires forall i :: 0 <= i < |s| ==> '0' <= s[i] <= '9'
  {
    if s == [] then 0
    else 10 * DecimalValue(s[..|s| - 1]) + (s[|s| - 1] as int - '0' as int)
  }

  /** `Decimal` prints a number that reads back as itself. */
  lemma {:induction false} DecimalRoundTrip(n: nat)
    ensures DecimalValue(Decimal(n)) == n
  {
    if n >= 10 {
      DecimalRoundTrip(n / 10);
      var s := Decimal(n);
      assert s[..|s| - 1] == Decimal(n / 10);
    }
  }

  /** The shape name and the dimension entries (`r`, or the half extents as `w` and `h`). */
  function ShapeText(shape: BodyShape, f: Formats): Result<(string, seq<Field>), ExportError> {
    match shape
    case Ball(radius) => Ok(("Circle", [Field("r", Numeral(f.display(radius)))]))
    case Cuboid(hx, hy) => Ok(("Rect", [Field("w", Numeral(f.display(hx))), Field("h", Numeral(f.display(hy)))]))
    case OtherShape => Err(UnsupportedShape)
  }

  /** Only static and dynamic bodies can be exported. */
  function StatusText(status: BodyStatus): Result<string, ExportError> {
    match status
    case Static => Ok("static")
    case Dynamic => Ok("dynamic")
    case _ => Err(UnsupportedStatus)
  }

  /** The entries before the dimensions: the shape name, the position, the rotation and the velocities. */
  function LeadingFields(e: EntitySnapshot, f: Formats, shapeName: string): (r: seq<Field>)
    ensures |r| == 7
  {
    [Field("shape", Quoted(shapeName)),
     Field("x", Numeral(f.fixed3(e.x))),
     Field("y", Numeral(f.fixed3(e.y))),
     Field("rotation", Numeral(f.fixed3(e.rotation))),
     Field("x_vel", Numeral(f.fixed3(e.xVel))),
     Field("y_vel", Numeral(f.fixed3(e.yVel))),
     Field("rotvel", Numeral(f.fixed3(e.rotVel)))]
  }

  /** The entries after the dimensions: the material, the colour and the status. */
  function TrailingFields(e: EntitySnapshot, f: Formats, status: string): (r: seq<Field>)
    ensures |r| == 5
  {
    [Field("mass", Numeral(f.fixed3(e.mass))),
     Field("friction", Numeral(f.fixed3(e.friction))),
     Field("elasticity", Numeral(f.fixed3(e.restitution))),
     Field("color", Channels(f.channel(e.red), f.channel(e.green), f.channel(e.blue))),
     Field("status", Quoted(status))]
  }

  /** The entries of one body's literal, in the fixed key order. */
  function EntityFields(e: EntitySnapshot, f: Formats): Result<seq<Field>, ExportError> {
    var shape :- ShapeText(e.shape, f);
    var status :- StatusText(e.status);
    Ok(LeadingFields(e, f, shape.0) + shape.1 + TrailingFields(e, f, status))
  }

  function RenderPiece(p: Piece): string {
    match p
    case Quoted(t) => "\"" + t + "\""
    case Numeral(t) => t
    case Channels(r, g, b) => "{r = " + Decimal(r) + ", g = " + Decimal(g) + ", b = " + Decimal(b) + "}"
  }

  function RenderFields(fields: seq<Field>): (r: seq<string>)
    ensures |r| == |fields|
    ensures forall i :: 0 <= i < |fields| ==> r[i] == fields[i].key + " = " + RenderPiece(fields[i].value)
  {
    seq(|fields|, i requires 0 <= i < |fields| => fields[i].key + " = " + RenderPiece(fields[i].value))
  }

  /** `parts` with `sep` between neighbours. */
  function Join(parts: seq<string>, sep: string): string {
    if |parts| == 0 then ""
    else if |parts| == 1 then parts[0]
    else Join(parts[..|parts| - 1], sep) + sep + parts[|parts| - 1]
  }

  /** A table literal: `{` entries joined by ", " `}`. */
  function Literal(fields: seq<Field>): string {
    "{" + Join(RenderFields(fields), ", ") + "}"
  }

  function EntityLiteral(e: EntitySnapshot, f: Formats): Result<string, ExportError> {
    var fields :- EntityFields(e, f);
    Ok(Literal(fields))
  }

  /** `g` applied to each element in order; the first failure decides the error. */
  function Collect<T, U, E>(xs: seq<T>, g: T -> Result<U, E>): Result<seq<U>, E> {
    if xs == [] then Ok([])
    else
      var init :- Collect(xs[..|xs| - 1], g);
      var last :- g(xs[|xs| - 1]);
      Ok(init + [last])
  }

  /** The literals of all bodies, in order. */
  function Literals(ents: seq<EntitySnapshot>, f: Formats): Result<seq<string>, ExportError> {
    Collect(ents, e => EntityLiteral(e, f))
  }

  /** The whole exported text. */
  function Document(literals: seq<string>, gravityText: string): string {
    var call := "add_shapes(\n\t" + Join(literals, Separator) + "\n)\n";
    var consts := "GRAVITY = " + gravityText + "\n";
    call + "\n" + consts
  }

  function ExportScene(ents: seq<EntitySnapshot>, gravity: real, f: Formats): Result<string, ExportError> {
    var literals :- Literals(ents, f);
    Ok(Document(literals, f.display(gravity)))
  }

  /** `export_lua` without the file write: the `first` flag puts the separator between literals only. */
  method ExportLua(ents: seq<EntitySnapshot>, gravity: real, f: Formats) returns (r: Result<string, ExportError>)
    ensures r == ExportScene(ents, gravity, f)
  {
    var body := "";
    var first := true;
    var i := 0;
    ghost var literals: seq<string> := [];
    while i < |ents|
      invariant 0 <= i <= |ents|
      invariant first <==> i == 0
      invariant Literals(ents[..i], f) == Ok(literals)
      invariant body == Join(literals, Separator)
    {
      if !first {
        body := body + Separator;
      } else {
        first := false;
      }
      var literal := EntityLiteral(ents[i], f);
      CollectStep(ents, e => EntityLiteral(e, f), i);
      if literal.Err? {
        CollectFailFrom(ents, e => EntityLiteral(e, f), i + 1);
        return Err(literal.error);
      }
      JoinSnoc(literals, literal.value, Separator);
      body := body + literal.value;
      literals := literals + [literal.value];
      i := i + 1;
    }
    assert ents[..i] == ents;
    var document := "add_shapes(\n\t" + body + "\n)\n";
    var consts := "GRAVITY = " + f.display(gravity) + "\n";
    return Ok(document + "\n" + consts);
  }

  /** Joining one more part adds the separator only when something came before. */
  lemma JoinSnoc(parts: seq<string>, x: string, sep: string)
    ensures Join(parts + [x], sep) == if parts == [] then x else Join(parts, sep) + sep + x
  {
    assert (parts + [x])[..|parts|] == parts;
  }

  /** Joining two non-empty runs puts exactly one separator between them. */
  lemma {:induction false} JoinConcat(xs: seq<string>, ys: seq<string>, sep: string)
    requires xs != [] && ys != []
    ensures Join(xs + ys, sep) == Join(xs, sep) + sep + Join(ys, sep)
    decreases |ys|
  {
    var init := ys[..|ys| - 1];
    var last := ys[|ys| - 1];
    assert ys == init + [last];
    if init == [] {
      JoinSnoc(xs, last, sep);
    } else {
      JoinConcat(xs, init, sep);
      JoinConcatStep(xs, init, last, sep);
    }
  }

  /** One more part on the right of two joined runs. */
  lemma JoinConcatStep(xs: seq<string>, ys: seq<string>, x: string, sep: string)
    requires xs != [] && ys != []
    requires Join(xs + ys, sep) == Join(xs, sep) + sep + Join(ys, sep)
    ensures Join(xs + (ys + [x]), sep) == Join(xs, sep) + sep + Join(ys + [x], sep)
  {
    assert xs + (ys + [x]) == (xs + ys) + [x];
    JoinSnoc(xs + ys, x, sep);
    JoinSnoc(ys, x, sep);
  }

  /** No leading or trailing separator: the joined text starts with the first part and ends with the last. */
  lemma {:induction false} JoinEdges(parts: seq<string>, sep: string)
    requires parts != []
    ensures |Join(parts, sep)| >= |parts[0]| && |Join(parts, sep)| >= |parts[|parts| - 1]|
    ensures Join(parts, sep)[..|parts[0]|] == parts[0]
    ensures Join(parts, sep)[|Join(parts, sep)| - |parts[|parts| - 1]|..] == parts[|parts| - 1]
  {
    if |parts| > 1 {
      var rest := parts[1..];
      assert parts == [parts[0]] + rest;
      JoinConcat([parts[0]], rest, sep);
      assert Join(parts, sep) == parts[0] + sep + Join(rest, sep);
      assert (parts[0] + sep + Join(rest, sep))[..|parts[0]|] == parts[0];
    }
  }

  /** A body can be exported exactly when it is a ball or a cuboid and static or dynamic; the shape is checked first. */
  lemma ExportableIff(e: EntitySnapshot, f: Formats)
    ensures EntityFields(e, f).Ok? <==>
      (e.shape.Ball? || e.shape.Cuboid?) && (e.status == Static || e.status == Dynamic)
    ensures e.shape.OtherShape? ==> EntityFields(e, f) == Err(UnsupportedShape)
    ensures !e.shape.OtherShape? && e.status != Static && e.status != Dynamic ==>
      EntityFields(e, f) == Err(UnsupportedStatus)
  {
  }

  function Keys(fields: seq<Field>): (r: seq<string>)
    ensures |r| == |fields|
    ensures forall i :: 0 <= i < |fields| ==> r[i] == fields[i].key
  {
    seq(|fields|, i requires 0 <= i < |fields| => fields[i].key)
  }

  /** The fixed key order of a literal; a ball carries `r`, a cuboid `w` and `h`. */
  lemma KeyOrder(e: EntitySnapshot, f: Formats)
    requires EntityFields(e, f).Ok?
    ensures Keys(EntityFields(e, f).value) ==
      ["shape", "x", "y", "rotation", "x_vel", "y_vel", "rotvel"]
      + (if e.shape.Ball? then ["r"] else ["w", "h"])
      + ["mass", "friction", "elasticity", "color", "status"]
  {
  }

  /** The exported shape and status names are read back by the spawn translation as the same kind and status. */
  lemma ExportedNamesParse()
    ensures Spawn.KindOf("Circle") == Some(Spawn.CircleKind)
    ensures Spawn.KindOf("Rect") == Some(Spawn.RectKind)
    ensures Spawn.StatusOf("static") == Spawn.Static
    ensures Spawn.StatusOf("dynamic") == Spawn.Dynamic
  {
    assert Lower("Circle") == "circle";
    assert Lower("Rect") == "rect";
    assert Lower("static") == "static";
    assert Lower("dynamic") == "dynamic";
  }

  /** An empty scene is an empty call followed by the gravity line. */
  lemma EmptyScene(gravity: real, f: Formats)
    ensures ExportScene([], gravity, f) == Ok("add_shapes(\n\t\n)\n\nGRAVITY = " + f.display(gravity) + "\n")
  {
    var g := f.display(gravity);
    assert Literals([], f) == Ok([]);
    assert Join([], Separator) == "";
    assert "add_shapes(\n\t" + "" + "\n)\n" == "add_shapes(\n\t\n)\n";
    assert "add_shapes(\n\t\n)\n" + "\n" + ("GRAVITY = " + g + "\n") == "add_shapes(\n\t\n)\n\nGRAVITY = " + g + "\n";
  }

  /** Once a prefix fails, every longer prefix fails with the same error. */
  lemma {:induction false} CollectFailFrom<T, U, E>(xs: seq<T>, g: T -> Result<U, E>, k: nat)
    requires k <= |xs| && Collect(xs[..k], g).Err?
    ensures Collect(xs, g) == Collect(xs[..k], g)
    decreases |xs| - k
  {
    if k < |xs| {
      assert xs[..k + 1][..k] == xs[..k];
      CollectFailFrom(xs, g, k + 1);
    } else {
      assert xs[..k] == xs;
    }
  }

  /** Extending the collected prefix by one element. */
  lemma CollectStep<T, U, E>(xs: seq<T>, g: T -> Result<U, E>, i: nat)
    requires i < |xs|
    ensures Collect(xs[..i + 1], g) ==
      match Collect(xs[..i], g)
      case Err(e) => Err(e)
      case Ok(init) =>
        match g(xs[i])
        case Err(e) => Err(e)
        case Ok(last) => Ok(init + [last])
  {
    assert xs[..i + 1][..i] == xs[..i];
  }

  /**
   * Collecting succeeds exactly when every element succeeds; then there is
   * one result per element, in order. Otherwise the first failing element
   * decides the error.
   */
  lemma {:induction false} CollectEach<T, U, E>(xs: seq<T>, g: T -> Result<U, E>)
    ensures Collect(xs, g).Ok? <==> forall i :: 0 <= i < |xs| ==> g(xs[i]).Ok?
    ensures Collect(xs, g).Ok? ==>
      |Collect(xs, g).value| == |xs|
      && forall i :: 0 <= i < |xs| ==> Collect(xs, g).value[i] == g(xs[i]).value
    ensures Collect(xs, g).Err? ==>
      exists k :: 0 <= k < |xs| && g(xs[k]).Err? && Collect(xs, g).error == g(xs[k]).error
        && forall i :: 0 <= i < k ==> g(xs[i]).Ok?
  {
    if xs != [] {
      var init := xs[..|xs| - 1];
      CollectEach(init, g);
      assert forall i :: 0 <= i < |init| ==> init[i] == xs[i];
    }
  }

  /**
   * The export succeeds exactly when every body can be exported; then there
   * is one literal per body, in order. Otherwise the first body that cannot
   * be exported decides the error.
   */
  lemma LiteralsEach(ents: seq<EntitySnapshot>, f: Formats)
    ensures Literals(ents, f).Ok? <==> forall i :: 0 <= i < |ents| ==> EntityLiteral(ents[i], f).Ok?
    ensures Literals(ents, f).Ok? ==>
      |Literals(ents, f).value| == |ents|
      && forall i :: 0 <= i < |ents| ==> Literals(ents, f).value[i] == EntityLiteral(ents[i], f).value
    ensures Literals(ents, f).Err? ==>
      exists k :: 0 <= k < |ents| && EntityLiteral(ents[k], f).Err?
        && Literals(ents, f).error == EntityLiteral(ents[k], f).error
        && forall i :: 0 <= i < k ==> EntityLiteral(ents[i], f).Ok?
  {
    CollectEach(ents, e => EntityLiteral(e, f));
  }

  /**
   * The Lua value a literal entry denotes, given the value `readNum` of a
   * numeral (the reading of formatted decimals is left abstract); a colour
   * channel is written as an integer numeral and read as its decimal value.
   */
  function PieceValue(p: Piece, readNum: string -> real): Value {
    match p
    case Quoted(t) => Str(t)
    case Numeral(t) => Num(readNum(t))
    case Channels(r, g, b) => Table(map["r" := ChannelValue(r), "g" := ChannelValue(g), "b" := ChannelValue(b)], [])
  }

  /** The number a channel's decimal text reads as. */
  function ChannelValue(n: nat): Value {
    Num(DecimalValue(Decimal(n)) as real)
  }

  /** The colour sub-table reads back as the channels that were written. */
  lemma ChannelsRead(r: nat, g: nat, b: nat, readNum: string -> real)
    ensures PieceValue(Channels(r, g, b), readNum) ==
      Table(map["r" := Num(r as real), "g" := Num(g as real), "b" := Num(b as real)], [])
  {
    DecimalRoundTrip(r);
    DecimalRoundTrip(g);
    DecimalRoundTrip(b);
  }

  /** The table a literal constructs: the entries are bound in order, so a later entry of the same key wins. */
  function TableOf(fields: seq<Field>, readNum: string -> real): map<string, Value> {
    if fields == [] then map[]
    else
      var last := fields[|fields| - 1];
      TableOf(fields[..|fields| - 1], readNum)[last.key := PieceValue(last.value, readNum)]
  }

  /** An entry that no later entry overrides decides its key's value. */
  lemma {:induction false} TableOfEntry(fields: seq<Field>, readNum: string -> real, i: nat)
    requires i < |fields|
    requires forall j :: i < j < |fields| ==> fields[j].key != fields[i].key
    ensures Get(TableOf(fields, readNum), fields[i].key) == PieceValue(fields[i].value, readNum)
  {
    if i < |fields| - 1 {
      var init := fields[..|fields| - 1];
      assert init[i] == fields[i];
      TableOfEntry(init, readNum, i);
    }
  }

  /** A key no entry binds reads as nil. */
  lemma {:induction false} TableOfAbsent(fields: seq<Field>, readNum: string -> real, k: string)
    requires forall j :: 0 <= j < |fields| ==> fields[j].key != k
    ensures Get(TableOf(fields, readNum), k) == Nil
  {
    if fields != [] {
      var init := fields[..|fields| - 1];
      assert forall j :: 0 <= j < |init| ==> init[j] == fields[j];
      TableOfAbsent(init, readNum, k);
    }
  }

  /** No key occurs twice. */
  predicate DistinctKeys(fields: seq<Field>) {
    forall i, j :: 0 <= i < j < |fields| ==> fields[i].key != fields[j].key
  }

  /** With distinct keys every entry binds its key. */
  lemma TableOfDistinct(fields: seq<Field>, readNum: string -> real)
    requires DistinctKeys(fields)
    ensures forall i :: 0 <= i < |fields| ==>
      Get(TableOf(fields, readNum), fields[i].key) == PieceValue(fields[i].value, readNum)
  {
    forall i | 0 <= i < |fields|
      ensures Get(TableOf(fields, readNum), fields[i].key) == PieceValue(fields[i].value, readNum)
    {
      TableOfEntry(fields, readNum, i);
    }
  }

  /** The literal of an exported ball, entry by entry. */
  lemma BallFields(e: EntitySnapshot, f: Formats)
    requires EntityFields(e, f).Ok? && e.shape.Ball?
    ensures var fields := EntityFields(e, f).value;
      && DistinctKeys(fields)
      && fields == [Field("shape", Quoted("Circle")),
        Field("x", Numeral(f.fixed3(e.x))),
        Field("y", Numeral(f.fixed3(e.y))),
        Field("rotation", Numeral(f.fixed3(e.rotation))),
        Field("x_vel", Numeral(f.fixed3(e.xVel))),
        Field("y_vel", Numeral(f.fixed3(e.yVel))),
        Field("rotvel", Numeral(f.fixed3(e.rotVel))),
        Field("r", Numeral(f.display(e.shape.radius))),
        Field("mass", Numeral(f.fixed3(e.mass))),
        Field("friction", Numeral(f.fixed3(e.friction))),
        Field("elasticity", Numeral(f.fixed3(e.restitution))),
        Field("color", Channels(f.channel(e.red), f.channel(e.green), f.channel(e.blue))),
        Field("status", Quoted(StatusText(e.status).value))]
  {
  }

  /** The literal of an exported cuboid, entry by entry. */
  lemma CuboidFields(e: EntitySnapshot, f: Formats)
    requires EntityFields(e, f).Ok? && e.shape.Cuboid?
    ensures var fields := EntityFields(e, f).value;
      && DistinctKeys(fields)
      && fields == [Field("shape", Quoted("Rect")),
        Field("x", Numeral(f.fixed3(e.x))),
        Field("y", Numeral(f.fixed3(e.y))),
        Field("rotation", Numeral(f.fixed3(e.rotation))),
        Field("x_vel", Numeral(f.fixed3(e.xVel))),
        Field("y_vel", Numeral(f.fixed3(e.yVel))),
        Field("rotvel", Numeral(f.fixed3(e.rotVel))),
        Field("w", Numeral(f.display(e.shape.halfX))),
        Field("h", Numeral(f.display(e.shape.halfY))),
        Field("mass", Numeral(f.fixed3(e.mass))),
        Field("friction", Numeral(f.fixed3(e.friction))),
        Field("elasticity", Numeral(f.fixed3(e.restitution))),
        Field("color", Channels(f.channel(e.red), f.channel(e.green), f.channel(e.blue))),
        Field("status", Quoted(StatusText(e.status).value))]
  {
  }

  /**
   * Read-back: the table an exported literal constructs is accepted by the
   * spawn translation, with the same shape kind and status, the written
   * numbers, no name, and the written colour with opaque alpha (so long as
   * each channel fits a byte).
   */
  lemma ImportRecovers(e: EntitySnapshot, f: Formats, readNum: string -> real)
    requires EntityFields(e, f).Ok?
    requires f.channel(e.red) < 256 && f.channel(e.green) < 256 && f.channel(e.blue) < 256
    ensures Spawn.ProcessShape(TableOf(EntityFields(e, f).value, readNum)) == Ok(Spawn.SpawnSpec(
      if e.shape.Ball? then Spawn.Circle(readNum(f.display(e.shape.radius)))
      else Spawn.Rectangle(readNum(f.display(e.shape.halfX)), readNum(f.display(e.shape.halfY))),
      readNum(f.fixed3(e.x)), readNum(f.fixed3(e.y)),
      readNum(f.fixed3(e.rotation)),
      readNum(f.fixed3(e.xVel)), readNum(f.fixed3(e.yVel)),
      readNum(f.fixed3(e.rotVel)),
      readNum(f.fixed3(e.mass)),
      readNum(f.fixed3(e.restitution)),
      readNum(f.fixed3(e.friction)),
      if e.status == Static then Spawn.Static else Spawn.Dynamic,
      None,
      Spawn.Rgba(f.channel(e.red), f.channel(e.green), f.channel(e.blue), 255)))
  {
    var t := TableOf(EntityFields(e, f).value, readNum);
    ExportedTable(e, f, readNum);
    ExportedNamesParse();
    ChannelsRead(f.channel(e.red), f.channel(e.green), f.channel(e.blue), readNum);
    SpawnReads(t, e.shape.Ball?, StatusText(e.status).value, f.channel(e.red), f.channel(e.green), f.channel(e.blue),
      readNum(f.fixed3(e.x)), readNum(f.fixed3(e.y)), readNum(f.fixed3(e.rotation)),
      readNum(f.fixed3(e.xVel)), readNum(f.fixed3(e.yVel)), readNum(f.fixed3(e.rotVel)),
      readNum(f.fixed3(e.mass)), readNum(f.fixed3(e.friction)), readNum(f.fixed3(e.restitution)));
  }

  /** What the table of an exported literal binds, key by key. */
  lemma ExportedTable(e: EntitySnapshot, f: Formats, readNum: string -> real)
    requires EntityFields(e, f).Ok?
    ensures var t := TableOf(EntityFields(e, f).value, readNum);
      && Get(t, "shape") == Str(if e.shape.Ball? then "Circle" else "Rect")
      && Get(t, "x") == Num(readNum(f.fixed3(e.x)))
      && Get(t, "y") == Num(readNum(f.fixed3(e.y)))
      && Get(t, "rotation") == Num(readNum(f.fixed3(e.rotation)))
      && Get(t, "x_vel") == Num(readNum(f.fixed3(e.xVel)))
      && Get(t, "y_vel") == Num(readNum(f.fixed3(e.yVel)))
      && Get(t, "rotvel") == Num(readNum(f.fixed3(e.rotVel)))
      && (e.shape.Ball? ==> Get(t, "r") == Num(readNum(f.display(e.shape.radius))))
      && (e.shape.Cuboid? ==> Get(t, "w") == Num(readNum(f.display(e.shape.halfX))))
      && (e.shape.Cuboid? ==> Get(t, "h") == Num(readNum(f.display(e.shape.halfY))))
      && Get(t, "mass") == Num(readNum(f.fixed3(e.mass)))
      && Get(t, "friction") == Num(readNum(f.fixed3(e.friction)))
      && Get(t, "elasticity") == Num(readNum(f.fixed3(e.restitution)))
      && Get(t, "color") == PieceValue(Channels(f.channel(e.red), f.channel(e.green), f.channel(e.blue)), readNum)
      && Get(t, "status") == Str(StatusText(e.status).value)
      && Get(t, "name") == Nil
  {
    CommonEntries(e, f, readNum);
    if e.shape.Ball? {
      BallTable(e, f, readNum);
    } else {
      CuboidTable(e, f, readNum);
    }
  }

  /** The entries a ball and a cuboid have in common: every key but the dimensions. */
  lemma CommonEntries(e: EntitySnapshot, f: Formats, readNum: string -> real)
    requires EntityFields(e, f).Ok?
    ensures var t := TableOf(EntityFields(e, f).value, readNum);
      && Get(t, "shape") == Str(if e.shape.Ball? then "Circle" else "Rect")
      && Get(t, "x") == Num(readNum(f.fixed3(e.x)))
      && Get(t, "y") == Num(readNum(f.fixed3(e.y)))
      && Get(t, "rotation") == Num(readNum(f.fixed3(e.rotation)))
      && Get(t, "x_vel") == Num(readNum(f.fixed3(e.xVel)))
      && Get(t, "y_vel") == Num(readNum(f.fixed3(e.yVel)))
      && Get(t, "rotvel") == Num(readNum(f.fixed3(e.rotVel)))
      && Get(t, "mass") == Num(readNum(f.fixed3(e.mass)))
      && Get(t, "friction") == Num(readNum(f.fixed3(e.friction)))
      && Get(t, "elasticity") == Num(readNum(f.fixed3(e.restitution)))
      && Get(t, "color") == PieceValue(Channels(f.channel(e.red), f.channel(e.green), f.channel(e.blue)), readNum)
      && Get(t, "status") == Str(StatusText(e.status).value)
      && Get(t, "name") == Nil
  {
    var fields := EntityFields(e, f).value;
    CommonFields(e, f);
    ExportedKeysDistinct(e, f);
    TableOfDistinct(fields, readNum);
    NoNameKey(e, f);
    TableOfAbsent(fields, readNum, "name");
  }

  /** The entries every exported literal has, by position. */
  lemma CommonFields(e: EntitySnapshot, f: Formats)
    requires EntityFields(e, f).Ok?
    ensures var fields := EntityFields(e, f).value;
      var n := |fields|;
      && n >= 12
      && fields[0] == Field("shape", Quoted(if e.shape.Ball? then "Circle" else "Rect"))
      && fields[1] == Field("x", Numeral(f.fixed3(e.x)))
      && fields[2] == Field("y", Numeral(f.fixed3(e.y)))
      && fields[3] == Field("rotation", Numeral(f.fixed3(e.rotation)))
      && fields[4] == Field("x_vel", Numeral(f.fixed3(e.xVel)))
      && fields[5] == Field("y_vel", Numeral(f.fixed3(e.yVel)))
      && fields[6] == Field("rotvel", Numeral(f.fixed3(e.rotVel)))
      && fields[n - 5] == Field("mass", Numeral(f.fixed3(e.mass)))
      && fields[n - 4] == Field("friction", Numeral(f.fixed3(e.friction)))
      && fields[n - 3] == Field("elasticity", Numeral(f.fixed3(e.restitution)))
      && fields[n - 2] == Field("color", Channels(f.channel(e.red), f.channel(e.green), f.channel(e.blue)))
      && fields[n - 1] == Field("status", Quoted(StatusText(e.status).value))
  {
    if e.shape.Ball? {
      BallCommon(e, f);
    } else {
      CuboidCommon(e, f);
    }
  }

  /** The common entries of a ball literal, by position. */
  lemma BallCommon(e: EntitySnapshot, f: Formats)
    requires EntityFields(e, f).Ok? && e.shape.Ball?
    ensures var fields := EntityFields(e, f).value;
      && |fields| == 13
      && fields[0] == Field("shape", Quoted("Circle"))
      && fields[1] == Field("x", Numeral(f.fixed3(e.x)))
      && fields[2] == Field("y", Numeral(f.fixed3(e.y)))
      && fields[3] == Field("rotation", Numeral(f.fixed3(e.rotation)))
      && fields[4] == Field("x_vel", Numeral(f.fixed3(e.xVel)))
      && fields[5] == Field("y_vel", Numeral(f.fixed3(e.yVel)))
      && fields[6] == Field("rotvel", Numeral(f.fixed3(e.rotVel)))
      && fields[8] == Field("mass", Numeral(f.fixed3(e.mass)))
      && fields[9] == Field("friction", Numeral(f.fixed3(e.friction)))
      && fields[10] == Field("elasticity", Numeral(f.fixed3(e.restitution)))
      && fields[11] == Field("color", Channels(f.channel(e.red), f.channel(e.green), f.channel(e.blue)))
      && fields[12] == Field("status", Quoted(StatusText(e.status).value))
  {
    BallFields(e, f);
  }

  /** The common entries of a cuboid literal, by position. */
  lemma CuboidCommon(e: EntitySnapshot, f: Formats)
    requires EntityFields(e, f).Ok? && e.shape.Cuboid?
    ensures var fields := EntityFields(e, f).value;
      && |fields| == 14
      && fields[0] == Field("shape", Quoted("Rect"))
      && fields[1] == Field("x", Numeral(f.fixed3(e.x)))
      && fields[2] == Field("y", Numeral(f.fixed3(e.y)))
      && fields[3] == Field("rotation", Numeral(f.fixed3(e.rotation)))
      && fields[4] == Field("x_vel", Numeral(f.fixed3(e.xVel)))
      && fields[5] == Field("y_vel", Numeral(f.fixed3(e.yVel)))
      && fields[6] == Field("rotvel", Numeral(f.fixed3(e.rotVel)))
      && fields[9] == Field("mass", Numeral(f.fixed3(e.mass)))
      && fields[10] == Field("friction", Numeral(f.fixed3(e.friction)))
      && fields[11] == Field("elasticity", Numeral(f.fixed3(e.restitution)))
      && fields[12] == Field("color", Channels(f.channel(e.red), f.channel(e.green), f.channel(e.blue)))
      && fields[13] == Field("status", Quoted(StatusText(e.status).value))
  {
    CuboidFields(e, f);
  }

  /** The keys of an exported literal are distinct. */
  lemma ExportedKeysDistinct(e: EntitySnapshot, f: Formats)
    requires EntityFields(e, f).Ok?
    ensures DistinctKeys(EntityFields(e, f).value)
  {
    if e.shape.Ball? {
      BallFields(e, f);
    } else {
      CuboidFields(e, f);
    }
  }

  /** No entry of an exported literal is keyed `name`. */
  lemma NoNameKey(e: EntitySnapshot, f: Formats)
    requires EntityFields(e, f).Ok?
    ensures forall j :: 0 <= j < |EntityFields(e, f).value| ==> EntityFields(e, f).value[j].key != "name"
  {
    var fields := EntityFields(e, f).value;
    KeyOrder(e, f);
    forall j | 0 <= j < |fields| ensures fields[j].key != "name" {
      assert Keys(fields)[j] == fields[j].key;
    }
  }

  lemma BallTable(e: EntitySnapshot, f: Formats, readNum: string -> real)
    requires EntityFields(e, f).Ok? && e.shape.Ball?
    ensures Get(TableOf(EntityFields(e, f).value, readNum), "r") == Num(readNum(f.display(e.shape.radius)))
  {
    var fields := EntityFields(e, f).value;
    BallFields(e, f);
    TableOfEntry(fields, readNum, 7);
  }

  lemma CuboidTable(e: EntitySnapshot, f: Formats, readNum: string -> real)
    requires EntityFields(e, f).Ok? && e.shape.Cuboid?
    ensures var t := TableOf(EntityFields(e, f).value, readNum);
      && Get(t, "w") == Num(readNum(f.display(e.shape.halfX)))
      && Get(t, "h") == Num(readNum(f.display(e.shape.halfY)))
  {
    var fields := EntityFields(e, f).value;
    CuboidFields(e, f);
    TableOfEntry(fields, readNum, 7);
    TableOfEntry(fields, readNum, 8);
  }

  /** How the spawn translation reads a table that binds what an exported literal binds. */
  lemma SpawnReads(t: map<string, Value>, ball: bool, status: string, r: Byte, g: Byte, b: Byte,
                   x: real, y: real, rot: real, xVel: real, yVel: real, rotVel: real,
                   mass: real, friction: real, elasticity: real)
    requires Get(t, "shape") == Str(if ball then "Circle" else "Rect")
    requires Get(t, "x") == Num(x) && Get(t, "y") == Num(y)
    requires Get(t, "rotation") == Num(rot)
    requires Get(t, "x_vel") == Num(xVel) && Get(t, "y_vel") == Num(yVel)
    requires Get(t, "rotvel") == Num(rotVel)
    requires Get(t, "mass") == Num(mass) && Get(t, "friction") == Num(friction)
    requires Get(t, "elasticity") == Num(elasticity)
    requires Get(t, "color") == Table(map["r" := Num(r as real), "g" := Num(g as real), "b" := Num(b as real)], [])
    requires Get(t, "status") == Str(status)
    requires Get(t, "name") == Nil
    requires ball ==> Get(t, "r").Num?
    requires !ball ==> Get(t, "w").Num? && Get(t, "h").Num?
    ensures Spawn.ProcessShape(t) == Ok(Spawn.SpawnSpec(
      if ball then Spawn.Circle(Get(t, "r").x) else Spawn.Rectangle(Get(t, "w").x, Get(t, "h").x),
      x, y, rot, xVel, yVel, rotVel, mass, elasticity, friction,
      Spawn.StatusOf(status), None, Spawn.Rgba(r, g, b, 255)))
  {
    ExportedNamesParse();
    var c := Get(t, "color").fields;
    assert Get(c, "r") == Num(r as real);
    assert Get(c, "g") == Num(g as real);
    assert Get(c, "b") == Num(b as real);
    assert Get(c, "a") == Nil;
  }
}
