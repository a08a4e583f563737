# SIMple-Mechanics scripting bridge and telemetry graphs, in Dafny

This project models two parts of SIMple-Mechanics, a 2-D rigid-body sandbox that embeds Lua.

**The Lua bridge (`src/lua.rs`).**
- The initial Lua globals, and the Lua-side `add_shape` / `add_shapes` helpers that queue spawn tables in the global `shapes`.
- `process_lua_shape`: it turns one loosely typed spawn table into a body-creation request. Optional keys get fixed defaults, `status` is matched case-insensitively, and `shape` is dispatched to a rectangle or a circle.
- `process_lua_shapes`: it creates a batch of bodies in order and then calls `world.maintain()` once.
- The queue drain after a script file is loaded.
- The per-frame sync `lua_update`.
- The scene exporter `export_lua`, which writes the scene back as a Lua script.

**The telemetry line graphs (`src/gui/graphs.rs`).**
- The bounded first-in first-out sample buffer of each graph (`Default`, `add_val`, `points`, `name`).
- The CSV export's column and row construction.

Modules, one per component:

- `Wrappers`: `Option` and `Result`.
- `LuaValue`: Lua values, and the conversions the Lua binding applies when the host reads a global or a table field as a Rust type.
- `Spawn`: `process_lua_shape`, as a function from a table to `Result<SpawnSpec, SpawnError>`.
- `Bridge`: the Lua globals as a class (`Runtime`), and the host as a class (`MainState`). `MainState` holds gravity, the pause flag and a log of `Create(spec)` / `Maintain` events.
- `SceneExport`: `export_lua` as a loop with the source's `first` flag. It is proved equal to a functional description of the document. The module also defines the table an exported literal constructs when the script is read back.
- `Graphs`: the graph kinds and the `LineGraph` class with its sample buffer.
- `CsvExport`: the columns, the header record and the data records.

Every panic of the source (`unwrap` on a failed read, `panic!("invalid shape")`, an unexportable body) is modelled as an error result. The state at the point of the panic is specified.

Behaviours of the code worth knowing, each of which the model follows:
- **Dimensions.** Spawn tables with non-positive dimensions are accepted (`Spawn.NegativeWidthAccepted`).
- **Batches.** One bad table in a batch panics and abandons the rest of the batch. The bodies created before it stay, and `maintain` is not called.
- **Reading `PAUSED`.** It is read with Lua truthiness, so any value other than nil or false pauses the simulation.
- **Pushed globals.** `lua_update` does not push `PAUSED` or `GRAVITY` back to Lua.
- **`DT`.** It goes into a global named `DT`, in milliseconds.
- **The exported literal.**
  - It writes shapes as `"Circle"` and `"Rect"`.
  - It writes a cuboid's half extents as `w` and `h`.
  - It writes dimensions and gravity with the default float format, not three decimals.
  - It omits the entity name.
  - It puts an empty line between the `add_shapes(...)` call and the `GRAVITY` line.
- **Body status on export.** Kinematic bodies are refused, although the spawn table accepts them.

## Model

| member | source | states |
|---|---|---|
| LuaValue.ToBool | src/lua.rs:293-297 | Reading a bool never fails. It is false exactly for nil and false (Lua truthiness). |
| LuaValue.ToNumber | src/lua.rs:118-126 | A number read succeeds exactly on a number and yields it. |
| LuaValue.ToText | src/lua.rs:117-130 | A string read succeeds exactly on a string and yields it. |
| LuaValue.ToByte | src/lua.rs:134-137 | A Lua number reads as a colour channel exactly when it is in (-1, 256). A non-negative value is truncated to the integer below it, and a value in (-1, 0) reads as 0. |
| LuaValue.BeforeNil | src/lua.rs:73-77 | The result is the longest nil-free prefix of the values: what `ipairs` visits and what a sequence read collects. |
| LuaValue.ToTableList | src/lua.rs:191 | The queue converts exactly when every array entry before the first nil is a table. The result has one field map per such entry, in order. |
| LuaValue.QueueStopsAtNil | src/lua.rs:191 | A queue with a nil entry is read only up to that entry. |
| LuaValue.Lower | src/lua.rs:142-148 | Lower-casing keeps the length and maps each character to its lower-case form. |
| LuaValue.LowerIdempotent | src/lua.rs:142-148 | Lower-casing twice equals lower-casing once. |
| Spawn.ProcessShape | src/lua.rs:116-174 | Defines the translation of one spawn table. Failures come in the source's order: `shape`, `x`, `y`, the colour channels, the shape kind, then the dimensions. Optional keys take their defaults. |
| Spawn.Required | src/lua.rs:119-120 | A required number is Ok exactly when the key holds a number. Otherwise the error names the key. |
| Spawn.AcceptedIff | src/lua.rs:116-159 | A table becomes a request exactly when all of these hold: `shape` is a string, `x` and `y` are numbers, a `color` table has byte-valued `r`, `g` and `b`, and the lower-cased shape is rectangle/rect with numeric `w`, `h` or circle with numeric `r`. |
| Spawn.OptionalDefaults | src/lua.rs:118-127 | An accepted request carries `x` and `y`. Optional numbers take their value when present and numeric, and otherwise the defaults: mass 1.0, velocities and rotation 0.0, elasticity 0.2, friction 0.5. The name is present exactly when `name` is a string. |
| Spawn.StatusRule | src/lua.rs:128-146 | A missing or non-string `status` gives Dynamic. Otherwise the status is Static exactly for "static" and Kinematic exactly for "kinematic", after lower-casing. |
| Spawn.StatusIgnoresCase | src/lua.rs:142-146 | The status match gives the same answer for a text and for its lower-cased form. |
| Spawn.StatusNeverFails | src/lua.rs:128-146 | Replacing `status` by any value changes neither acceptance nor the error, and changes only the status field of the request. |
| Spawn.ShapeRule | src/lua.rs:148-157 | The request is a circle exactly for "circle" and a rectangle exactly for "rectangle" or "rect", and it carries the table's `r`, or its `w` and `h`. |
| Spawn.Failures | src/lua.rs:117-120 | A missing `shape`, `x` or `y` gives that key's error, in that order. An unknown shape kind gives InvalidShape with the text. |
| Spawn.ColorRule | src/lua.rs:131-139 | Without a `color` table the colour is opaque white. With one, the channels are the converted `r`, `g`, `b`, and alpha is `a` when it reads as a byte and 255 otherwise. |
| Spawn.CircleScenario | src/lua.rs:116-173 | `{shape="circle", x=1, y=2, r=0.5}` becomes a dynamic white circle with mass 1.0, elasticity 0.2, friction 0.5 and no name. |
| Spawn.NegativeWidthAccepted | src/lua.rs:149-153 | A rectangle with a negative width is accepted. |
| Bridge.InitialGlobals | src/lua.rs:58-64 | Defines the globals set before any script runs. |
| Bridge.AppendItem | src/lua.rs:69-71 | `shapes[#shapes+1] = v` appends `v` to the array part. A nil stores nothing. |
| Bridge.Accepted | src/lua.rs:176-179 | Defines the requests of the leading tables that translate, up to the first that does not. |
| Bridge.FirstFailure | src/lua.rs:176-179 | Defines the error of the first table that fails to translate, if any. |
| Bridge.BatchLog | src/lua.rs:176-181 | Defines what a batch records: the accepted requests in order, then one maintain when no table failed. |
| Bridge.AcceptedAll | src/lua.rs:176-179 | When every table translates, there is no failure, and the batch yields one request per table in input order. |
| Bridge.AcceptedStopsAtFailure | src/lua.rs:176-179 | When table k is the first that fails, its error is the batch's. Exactly the k requests before it are created, in order. |
| Bridge.BatchStopped | src/lua.rs:176-179 | When the tables before table k translate and table k fails, the batch fails with table k's error and logs exactly the k creations. |
| Bridge.BatchCompleted | src/lua.rs:176-181 | When every table translates, the batch has no failure and logs the creations in order, then one maintain. |
| Bridge.CreatesSnoc | src/lua.rs:176-179 | Creating one more request appends one creation event to the log. |
| Bridge.MaintainOnce | src/lua.rs:176-181 | A successful batch logs exactly one maintain, as its last event. A failed batch logs none. |
| Bridge.ObjectsOf | src/lua.rs:331-337 | Defines `OBJECTS` as the successive `set` calls of the loop: a later entity with the same name overwrites. |
| Bridge.PushedGlobals | src/lua.rs:304-347 | Defines the globals after the writes at the end of `lua_update`. |
| Bridge.ObjectsKeys | src/lua.rs:331-337 | The keys of `OBJECTS` are exactly the entity names. |
| Bridge.ObjectsLastWins | src/lua.rs:331-337 | An entity whose name no later entity carries is the one `OBJECTS` binds to that name. |
| Bridge.ObjectsExact | src/lua.rs:331-337 | `OBJECTS` has exactly the entity names as keys. Each name is bound to the last entity carrying it. |
| Bridge.PushedGlobalsFacts | src/lua.rs:304-347 | After the writes, `ADD_SHAPES` is false, `shapes` is empty, `OBJECTS`, `FPS` and the mouse globals hold the frame's values, and no other global changes. |
| Bridge.Runtime.constructor | src/lua.rs:56-64 | The initial globals are an empty `shapes`, PAUSED false, GRAVITY 9.81, PI as f32, and the screen size. |
| Bridge.Runtime.AddShape | src/lua.rs:69-71 | `add_shape` appends its argument to the queue and changes nothing else. It fails, changing nothing, when `shapes` is not a table. |
| Bridge.Runtime.AddShapes | src/lua.rs:73-77 | `add_shapes` appends its arguments before the first nil, in argument order. |
| Bridge.Runtime.PushFrame | src/lua.rs:304-347 | The writes at the end of `lua_update`, including the `OBJECTS` loop, give exactly the pushed globals. |
| Bridge.MainState.ProcessLuaShapes | src/lua.rs:176-181 | The log gains the batch's creations in order, then one maintain. The first failure stops the batch; its error is returned, without a maintain. |
| Bridge.MainState.AddShapesFromLuaFile | src/lua.rs:183-197 | The queue's tables are created as a batch, and then `shapes` is empty. A queue that is not a list of tables, or a failed table, stops the drain with the queue still in place. |
| Bridge.MainState.LuaUpdate | src/lua.rs:285-349 | Queued tables are created only when `ADD_SHAPES` reads as true, and are otherwise discarded. `paused` takes the truthiness of `PAUSED`. Gravity changes only when `GRAVITY` is a number. The globals end as the pushed globals, or are untouched when a panic stops the sync. |
| SceneExport.DecimalRoundTrip | src/lua.rs:264-266 | The decimal text of a colour channel reads back as the same number. |
| SceneExport.EntityFields | src/lua.rs:222-268 | Defines one body's literal entries in the format string's order, or the shape or status error. |
| SceneExport.Document | src/lua.rs:271-280 | Defines the document: the literals joined inside `add_shapes(\n\t...\n)\n`, an empty line, then `GRAVITY = g`. |
| SceneExport.ExportScene | src/lua.rs:199-283 | Defines the exported text of a scene, or the first body's error. |
| SceneExport.ExportLua | src/lua.rs:199-283 | The `first`-flag loop produces exactly the document: the literals joined by `",\n\t"` inside `add_shapes(\n\t...\n)\n`, an empty line, then `GRAVITY = g`. The first unexportable body decides the error. |
| SceneExport.JoinSnoc | src/lua.rs:213-217 | One more literal adds the separator only when something came before. |
| SceneExport.JoinConcat | src/lua.rs:213-217 | Two joined runs are separated by exactly one separator. |
| SceneExport.JoinConcatStep | src/lua.rs:213-217 | Adding one part on the right keeps the single separator between two joined runs. |
| SceneExport.JoinEdges | src/lua.rs:210-217 | The joined text starts with the first literal and ends with the last: there is no leading or trailing separator. |
| SceneExport.ExportableIff | src/lua.rs:222-247 | A body exports exactly when it is a ball or cuboid and static or dynamic. The shape is checked before the status. |
| SceneExport.KeyOrder | src/lua.rs:251 | Every literal has the fixed key order, with `r` for a ball and `w`, `h` for a cuboid. |
| SceneExport.ExportedNamesParse | src/lua.rs:142-159 | "Circle", "Rect", "static" and "dynamic", as written by the exporter, parse back to circle, rectangle, Static and Dynamic. |
| SceneExport.EmptyScene | src/lua.rs:271-280 | An empty scene is an empty call, an empty line and the gravity line. |
| SceneExport.CollectEach | src/lua.rs:212-269 | Collecting per-element results succeeds exactly when each element does, keeping order. Otherwise the first failing element decides. |
| SceneExport.LiteralsEach | src/lua.rs:212-269 | The export succeeds exactly when every body exports, with one literal per body in order. Otherwise the first failing body decides. |
| SceneExport.BallFields | src/lua.rs:224-227 | A ball's literal is the fixed entry list with `shape = "Circle"` and `r`, and its keys are distinct. |
| SceneExport.CuboidFields | src/lua.rs:228-232 | A cuboid's literal is the fixed entry list with `shape = "Rect"`, `w` and `h`, and its keys are distinct. |
| SceneExport.BallCommon | src/lua.rs:224-227 | A ball's literal has 13 entries: the shared entries at positions 0-6 and 8-12, with `shape = "Circle"`. |
| SceneExport.CuboidCommon | src/lua.rs:228-232 | A cuboid's literal has 14 entries: the shared entries at positions 0-6 and 9-13, with `shape = "Rect"`. |
| SceneExport.CommonFields | src/lua.rs:249-268 | Every literal's shared entries, by position: the first seven and the last five. |
| SceneExport.ExportedKeysDistinct | src/lua.rs:249-268 | No key occurs twice in an exported literal. |
| SceneExport.NoNameKey | src/lua.rs:249-268 | No entry of an exported literal is keyed `name`. |
| SceneExport.TableOf | src/lua.rs:251 | Defines the table a literal constructs when read back: entries are bound in order. |
| SceneExport.TableOfEntry | src/lua.rs:251 | In the table a literal constructs, an entry that is not overridden later decides its key. |
| SceneExport.TableOfAbsent | src/lua.rs:251 | A key no entry binds reads as nil in the constructed table. |
| SceneExport.TableOfDistinct | src/lua.rs:251 | With distinct keys, every entry binds its key to its piece. |
| SceneExport.CommonEntries | src/lua.rs:249-268 | The constructed table binds every shared key to the written piece and has no `name`. |
| SceneExport.BallTable | src/lua.rs:224-227 | A ball's table binds `r` to the written radius. |
| SceneExport.CuboidTable | src/lua.rs:228-232 | A cuboid's table binds `w` and `h` to the written half extents. |
| SceneExport.ExportedTable | src/lua.rs:249-268 | The table an exported literal constructs binds each key to the written piece, and has no `name`. |
| SceneExport.ChannelsRead | src/lua.rs:251-266 | The colour sub-table, read back through the channels' decimal text, holds the written channels. |
| SceneExport.SpawnReads | src/lua.rs:116-159 | A table binding what an exported literal binds is accepted by the spawn translation. The request carries exactly the bound numbers, the parsed status, no name and the colour with alpha 255. |
| SceneExport.ImportRecovers | src/lua.rs:199-268 | Reading an exported literal back gives an accepted request. It has the same shape kind, the written dimensions and numbers, the same status, no name, and the colour with alpha 255 when the channels fit a byte. |
| Graphs.GraphNamesDistinct | src/gui/graphs.rs:188-229 | Two graph kinds have the same name only when they are the same kind. |
| Graphs.Respaced | src/gui/graphs.rs:152-156 | Re-spacing keeps every value and moves point i to x = i * (10 / max_len). |
| Graphs.Appended | src/gui/graphs.rs:150-163 | One sample grows the buffer by one when len+1 < max_len. Otherwise the length is unchanged, except that an empty buffer grows to 1. The last point is [10, v]. |
| Graphs.AppendedValues | src/gui/graphs.rs:154-162 | The values after a sample are the old values in order, less the oldest one when the buffer was full, followed by v. |
| Graphs.AppendedPositions | src/gui/graphs.rs:152-156 | Every point except the new one sits at its old index times 10 / max_len. |
| Graphs.AppendedBound | src/gui/graphs.rs:157-162 | With max_len >= 2, a buffer of at most max_len - 1 points stays within that bound. |
| Graphs.AppendedRecent | src/gui/graphs.rs:150-163 | Within the bound, one sample moves the window of the most recent max_len - 1 values by one. |
| Graphs.AppendedAll | src/gui/graphs.rs:150-163 | Defines the buffer after a run of samples, oldest first. |
| Graphs.WindowShift | src/gui/graphs.rs:150-163 | The window after the first sample, extended by the remaining samples, is the window of the whole run. |
| Graphs.AppendedAllWindow | src/gui/graphs.rs:150-163 | A run of samples leaves exactly the most recent max_len - 1 values, in order. |
| Graphs.DefaultWindow | src/gui/graphs.rs:135-163 | A default graph fed a run of samples holds the most recent 299 of them. |
| Graphs.LineGraph.Default | src/gui/graphs.rs:135-142 | A new graph is empty and shown, with max_len 300. |
| Graphs.LineGraph.Name | src/gui/graphs.rs:165-167 | Defines the graph's display name as its kind's name. |
| Graphs.LineGraph.Points | src/gui/graphs.rs:146-148 | The two slices concatenate to the buffer contents, in order. |
| Graphs.LineGraph.AddVal | src/gui/graphs.rs:150-163 | The in-place re-spacing loop followed by a push, or a pop then a push, leaves exactly `Appended(old data, max_len, v)`. |
| CsvExport.ColumnOf | src/gui/graphs.rs:313-324 | A column is named "entity graph", and its data is the buffer's values in order. |
| CsvExport.ColumnNamesDiffer | src/gui/graphs.rs:313-324 | One entity's columns of different kinds have different names. |
| CsvExport.KindColumns | src/gui/graphs.rs:310-327 | Defines the columns of one kind, in entity order. |
| CsvExport.Columns | src/gui/graphs.rs:307-337 | Defines all columns, kind by kind in the fixed order. |
| CsvExport.KindColumnsMembers | src/gui/graphs.rs:310-327 | A kind's columns are exactly the columns of the entities that are named and carry that graph. |
| CsvExport.KindColumnsCount | src/gui/graphs.rs:310-327 | A kind has at most one column per entity. It has one for each entity when all qualify, and none when none do. |
| CsvExport.ColumnsGrouped | src/gui/graphs.rs:331-337 | Columns are grouped by kind: Speed, Rotation, X and Y Position, X and Y Velocity, Rotational Velocity. |
| CsvExport.BuildColumns | src/gui/graphs.rs:307-337 | The column-building loops yield exactly the grouped columns. |
| CsvExport.Header | src/gui/graphs.rs:341-347 | The header is the column names in column order. |
| CsvExport.MaxLen | src/gui/graphs.rs:360-378 | The row count bounds every column's length. It is reached by some column, and is zero without columns. |
| CsvExport.Row | src/gui/graphs.rs:361-369 | Row i has one cell per column: the formatted value when i is below the column's length, and "" otherwise. |
| CsvExport.Rows | src/gui/graphs.rs:360-378 | There are as many data records as the longest column has values, each the row at its index. |
| CsvExport.BlankIff | src/gui/graphs.rs:360-373 | Because the formatter never yields empty text, a row is all empty exactly when its index is at or past every column's end. |
| CsvExport.Record | src/gui/graphs.rs:361-369 | Advancing every column cursor once yields exactly row i. |
| CsvExport.RowsStep | src/gui/graphs.rs:360-378 | The first i + 1 data records are the first i followed by row i. |
| CsvExport.Records | src/gui/graphs.rs:354-378 | The loop that advances all column cursors and stops at the first all-empty record yields exactly the data records. |
| CsvExport.SerializeGraphs | src/gui/graphs.rs:298-379 | The CSV is the header record followed by the data records. |

## Left out

- Lua execution is not modelled: `run_lua_code`, `run_lua_file` and the Lua parser. A script's effects are modelled as operations on the globals map (`AddShape`, `AddShapes`, direct writes). The source text, error printing and the never-called `update()` function are not modelled.
- The memory limit and the instruction-count hook (`src/lua.rs:47-54`) are not modelled. They are engine internals, and the hook's response is a process panic.
- The `Arc`/`Mutex` locking is not modelled, because it serves concurrency.
- File I/O is not modelled: reading the script, `std::fs::write` of the exported text, and the CSV writer with its quoting. The model produces the text and the record sequence.
- Number formatting is a parameter: `{:.3}`, `{}`, `(c * 255.0).round() as usize` and the CSV's `{:.3}`. So is the host's f32 arithmetic, `SCREEN_X * scale_fac` and `DT.as_millis()`. f32 rounding is not modelled; numbers are reals.
- LuaValue.ToNumber: the Lua binding's coercion of numeric strings to numbers is not modelled.
- LuaValue.ToText: the Lua binding's coercion of numbers to strings is not modelled.
- LuaValue.ToByte: the Lua binding's coercion of numeric strings to `u8` is not modelled. So a channel such as `r = "200"` is refused here with `BadColor("r")`, while the source reads it as 200.
- Spawn.Required, Spawn.OptionalDefaults, Spawn.AcceptedIff, Spawn.ColorRule and Spawn.ProcessShape inherit the two gaps above. A numeric string for `x`, `y`, a dimension, an optional number or a colour channel is treated here as a non-number.
- LuaValue.Lower: only ASCII letters are lower-cased; Unicode case mapping is not modelled.
- The Lua value model has only string keys and an array part. Tables keyed by other values, functions and metatables are not modelled.
- The physics engine is not modelled: `BodyBuilder`, colliders, `downcast`, augmented mass, and the effect of `maintain()`. The host is a recorder of creation commands and maintain calls.
- SceneExport.ImportRecovers: dimensions are not claimed to round-trip. The exporter writes half extents, and how `BodyBuilder` reads `w` and `h` is not part of this model. Parsing numerals is a parameter (`readNum`), so the 3-decimal precision of numbers is not stated.
- Which bodies export, and in which order, depends on the component storages' join order. That order is the input sequence here.
- Graph rendering is not modelled: `Graph::draw`, `draw_graphs`, `draw_graph_frame`, `graph_grab_rect`, point shapes and `access_field`. It is mesh drawing and scale arithmetic.
- `src/gui/ui.rs` is not part of this model.
- Graphs.LineGraph.AddVal: a `max_len` of 0 is excluded (`Valid()`), because the step 10 / 0 is not a real number. Nothing in the sources sets `max_len` other than `Default`.
- Graphs.LineGraph.Points: the split point of the ring buffer's two slices is a parameter, because it depends on the buffer's internal layout.
- CsvExport.SerializeGraphs: the graphs and names are taken as one snapshot per entity, in entity order, which is the order of the storage join.
