// The points layer, L.glify.Points (src/js/glify/points.js): construction from
// user settings, the colour a setting resolves to, the interleaved vertex
// buffer with the click index that `render` rebuilds, the view matrices of
// `drawOnCanvas` and the click lookup.

module PointsLayer {
  import opened Glify
  import opened Grid
  import opened Nearest
  import opened Matrix

  // ---------------------------------------------------------------------------
  // Setting values

  /** A colour generator: the two of Points.color, or a function of the user's
      with its declared parameter count (its `length`). */
  datatype Fn = RandomColor | PalletColor | UserFunction(id: nat, arity: nat)

  /** The JavaScript values a setting can hold, as far as the layer looks at them. */
  datatype Value =
    | Undefined
    | Null
    | Bool(b: bool)
    | Number(n: real)
    | Text(s: string)
    | Coordinates(items: seq<LatLng>)
    | ColorObject(rgb: Rgb)
    | MapObject(id: nat)
    | Function(fn: Fn)

  predicate Nullish(v: Value) {
    v.Undefined? || v.Null?
  }

  /** JavaScript truthiness; every array and object is truthy, even an empty one. */
  predicate Truthy(v: Value) {
    match v
    case Undefined => false
    case Null => false
    case Bool(b) => b
    case Number(n) => n != 0.0
    case Text(s) => s != ""
    case _ => true
  }

  /** A property read: `undefined` when the object has no such key. */
  function Get(settings: map<string, Value>, k: string): Value {
    if k in settings then settings[k] else Undefined
  }

  /** Points.defaults. */
  const DefaultSettings: map<string, Value> := map[
    "map" := Null,
    "data" := Coordinates([]),
    "debug" := Bool(false),
    "vertexShader" := Text(""),
    "fragmentShader" := Text(""),
    "pointThreshold" := Number(10.0),
    "clickPoint" := Null,
    "color" := Text("red")
  ]

  /** The settings the constructor insists on, in the order it checks them. */
  const RequiredSettings: seq<string> := ["vertexShader", "fragmentShader", "data", "map"]

  /** The constructor's checks: the first of `names` whose value in `user` is
      falsy is reported; the checks read the caller's own object, not the
      merged settings. */
  function MissingSetting(user: map<string, Value>, names: seq<string>): (r: Option<Error>)
    ensures r.None? <==> forall i :: 0 <= i < |names| ==> Truthy(Get(user, names[i]))
    ensures r.Some? ==> exists i :: 0 <= i < |names| && r.value == ConfigError(names[i])
                                   && !Truthy(Get(user, names[i]))
                                   && forall j :: 0 <= j < i ==> Truthy(Get(user, names[j]))
  {
    if names == [] then None
    else if !Truthy(Get(user, names[0])) then Some(ConfigError(names[0]))
    else
      var rest := MissingSetting(user, names[1..]);
      assert forall i :: 1 <= i < |names| ==> names[1..][i - 1] == names[i];
      rest
  }

  /** Leaving out `data` fails construction although the merged settings would
      hold the default `[]`, which is truthy. */
  lemma OmittedDataIsRejected(user: map<string, Value>)
    requires Truthy(Get(user, "vertexShader")) && Truthy(Get(user, "fragmentShader"))
    requires "data" !in user
    ensures MissingSetting(user, RequiredSettings) == Some(ConfigError("data"))
    ensures Truthy(Get(Merged(user, DefaultSettings), "data"))
  {
    var rest := RequiredSettings[1..];
    assert rest == ["fragmentShader", "data", "map"] && rest[1..] == ["data", "map"];
    assert MissingSetting(user, rest[1..]) == Some(ConfigError("data"));
    assert DefaultSettings["data"] == Coordinates([]);
  }

  /** An explicitly empty data array passes the checks. */
  lemma EmptyDataIsAccepted(user: map<string, Value>)
    requires Truthy(Get(user, "vertexShader")) && Truthy(Get(user, "fragmentShader"))
    requires Get(user, "data") == Coordinates([]) && Truthy(Get(user, "map"))
    ensures MissingSetting(user, RequiredSettings) == None
  {
    assert forall i :: 0 <= i < 4 ==> Truthy(Get(user, RequiredSettings[i]));
  }

  // ---------------------------------------------------------------------------
  // Colours

  /** The keys of `Points.color`. */
  const PaletteNames: set<string> := {"green", "red", "blue", "teal", "yellow", "random", "pallet"}

  /** The eight settings of Points.defaults and the values that matter to the
      layer: no map, no data, the colour `red`. */
  lemma DefaultSettingsAre()
    ensures DefaultSettings.Keys
            == {"map", "data", "debug", "vertexShader", "fragmentShader", "pointThreshold", "clickPoint", "color"}
    ensures DefaultSettings["map"] == Null && DefaultSettings["data"] == Coordinates([])
    ensures DefaultSettings["color"] == Text("red") && DefaultSettings["pointThreshold"] == Number(10.0)
  {
  }

  /** `Points.color[key]`: only a string key can name an entry. The five
      colour entries are the pallet's colours; the two function entries are
      the built-in generators. */
  function PaletteEntry(key: Value): (r: Option<Value>)
    ensures r.Some? <==> key.Text? && key.s in PaletteNames
    ensures r.Some? ==> (r.value.ColorObject? && r.value.rgb in PalletColors)
                        || r.value == Function(RandomColor) || r.value == Function(PalletColor)
  {
    match key
    case Text(s) =>
      if s == "green" then Some(ColorObject(Green))
      else if s == "red" then Some(ColorObject(Red))
      else if s == "blue" then Some(ColorObject(Blue))
      else if s == "teal" then Some(ColorObject(Teal))
      else if s == "yellow" then Some(ColorObject(Yellow))
      else if s == "random" then Some(Function(RandomColor))
      else if s == "pallet" then Some(Function(PalletColor))
      else None
    case _ => None
  }

  /** Reading `.r`, `.g` and `.b` off a value: a TypeError on null or undefined,
      `undefined` channels on anything but a colour object. */
  function ChannelsOf(v: Value): (r: Result<Rgb, Error>)
    ensures r.Err? <==> Nullish(v)
    ensures v.ColorObject? ==> r == Ok(v.rgb)
  {
    match v
    case Undefined => Err(TypeError)
    case Null => Err(TypeError)
    case ColorObject(c) => Ok(c)
    case _ => Ok(Rgb(Unset, Unset, Unset))
  }

  /** What `render` paints with: one colour for every point, or a function
      called once per point. */
  datatype Painter = Uniform(rgb: Rgb) | PerCall(fn: Fn)

  /** The colour choice at the top of `render`: the palette entry the setting
      names, or else the setting itself; reading `.call` on it throws when it
      is null or undefined. */
  function ResolveColor(setting: Value): (r: Result<Painter, Error>)
    ensures r.Err? <==> Nullish(setting)
    ensures r.Err? ==> r.error == TypeError
    ensures setting.Function? ==> r == Ok(PerCall(setting.fn))
    ensures setting.ColorObject? ==> r == Ok(Uniform(setting.rgb))
    ensures setting.Text? && PaletteEntry(setting).None? ==> r == Ok(Uniform(Rgb(Unset, Unset, Unset)))
  {
    var color := match PaletteEntry(setting) case Some(v) => v case None => setting;
    if Nullish(color) then Err(TypeError)
    else if color.Function? then Ok(PerCall(color.fn))
    else Ok(Uniform(ChannelsOf(color).value))
  }

  /** The named colours resolve to Points.color's entries; the default `red`
      among them. */
  lemma NamedColors()
    ensures ResolveColor(DefaultSettings["color"]) == Ok(Uniform(Red))
    ensures ResolveColor(Text("green")) == Ok(Uniform(Green))
    ensures ResolveColor(Text("blue")) == Ok(Uniform(Blue))
    ensures ResolveColor(Text("teal")) == Ok(Uniform(Teal))
    ensures ResolveColor(Text("yellow")) == Ok(Uniform(Yellow))
    ensures ResolveColor(Text("random")) == Ok(PerCall(RandomColor))
    ensures ResolveColor(Text("pallet")) == Ok(PerCall(PalletColor))
  {
    assert DefaultSettings["color"] == Text("red");
  }

  /** Everything that is not known to the layer: what the user's functions
      return, indexed by function and call number (None when that call
      throws), and the stream of Math.random(). */
  datatype Env = Env(user: (nat, nat) -> Option<Value>, draw: nat -> Unit)

  /** The value of the `n`-th call of a colour generator. `random` takes three
      draws per call, `pallet` one; a `pallet` choice outside its switch gives
      `undefined`. A user function's call may throw instead of returning. */
  function CallResult(f: Fn, env: Env, n: nat): (r: Result<Value, Error>)
    ensures r.Err? <==> f.UserFunction? && env.user(f.id, n).None?
    ensures r.Err? ==> r.error == UserException
    ensures f.UserFunction? && r.Ok? ==> r.value == env.user(f.id, n).value
    ensures f.RandomColor? ==> r.Ok? && r.value.ColorObject?
                               && r.value.rgb.r == Num(env.draw(3 * n))
                               && r.value.rgb.g == Num(env.draw(3 * n + 1))
                               && r.value.rgb.b == Num(env.draw(3 * n + 2))
    ensures f.PalletColor? ==> r.Ok? && r.value.ColorObject? && r.value.rgb in PalletColors
  {
    PalletNeverUndefined(env.draw(n));
    match f
    case RandomColor =>
      Ok(ColorObject(Rgb(Num(env.draw(3 * n)), Num(env.draw(3 * n + 1)), Num(env.draw(3 * n + 2)))))
    case PalletColor =>
      Ok(match PalletPick(env.draw(n)) case Some(c) => ColorObject(c) case None => Undefined)
    case UserFunction(id, _) =>
      match env.user(id, n)
      case Some(v) => Ok(v)
      case None => Err(UserException)
  }

  /** The colour of point `i`. */
  function PointColor(p: Painter, env: Env, i: nat): (r: Result<Rgb, Error>)
    ensures p.Uniform? ==> r == Ok(p.rgb)
  {
    match p
    case Uniform(c) => Ok(c)
    case PerCall(f) =>
      match CallResult(f, env, i)
      case Ok(v) => ChannelsOf(v)
      case Err(e) => Err(e)
  }

  /** The generators of Points.color never make `render` throw: `random`
      gives three numbers in [0, 1), `pallet` one of its five colours. */
  lemma BuiltinGeneratorsNeverThrow(env: Env, i: nat)
    ensures var r := PointColor(PerCall(RandomColor), env, i);
            r.Ok? && r.value.r.Num? && 0.0 <= r.value.r.v < 1.0
            && r.value.g.Num? && 0.0 <= r.value.g.v < 1.0
            && r.value.b.Num? && 0.0 <= r.value.b.v < 1.0
    ensures PointColor(PerCall(PalletColor), env, i).Ok?
    ensures PointColor(PerCall(PalletColor), env, i).value in PalletColors
  {
    PalletNeverUndefined(env.draw(i));
  }

  /** A user function returning null or undefined for call `i` makes point
      `i` throw a TypeError. */
  lemma NullishUserColorThrows(env: Env, id: nat, arity: nat, i: nat)
    requires env.user(id, i).Some? && Nullish(env.user(id, i).value)
    ensures PointColor(PerCall(UserFunction(id, arity)), env, i) == Err(TypeError)
  {
  }

  /** A user function whose call `i` throws makes point `i` throw that same
      exception; a call that returns anything else gives point `i` a colour. */
  lemma UserColorThrowPropagates(env: Env, id: nat, arity: nat, i: nat)
    ensures env.user(id, i).None? ==> PointColor(PerCall(UserFunction(id, arity)), env, i) == Err(UserException)
    ensures env.user(id, i).Some? && !Nullish(env.user(id, i).value) ==>
              PointColor(PerCall(UserFunction(id, arity)), env, i).Ok?
  {
  }

  /** The index of the first point whose colour throws, among the first `n`. */
  function FirstFailure(p: Painter, env: Env, n: nat): (r: Option<nat>)
    ensures r.None? <==> forall i :: 0 <= i < n ==> PointColor(p, env, i).Ok?
    ensures r.Some? ==> r.value < n && PointColor(p, env, r.value).Err?
                        && forall i :: 0 <= i < r.value ==> PointColor(p, env, i).Ok?
  {
    if n == 0 then None
    else match FirstFailure(p, env, n - 1)
      case Some(i) => Some(i)
      case None => if PointColor(p, env, n - 1).Err? then Some(n - 1) else None
  }

  /** The first failure is the point that throws after a run of points that
      do not. */
  lemma {:induction false} FirstFailureAt(p: Painter, env: Env, n: nat, i: nat)
    requires i < n && FirstFailure(p, env, i) == None && PointColor(p, env, i).Err?
    ensures FirstFailure(p, env, n) == Some(i)
  {
    if n > i + 1 {
      FirstFailureAt(p, env, n - 1, i);
    }
  }

  /** The colours of the first `n` points, when none of them throws. */
  function Colors(p: Painter, env: Env, n: nat): (cs: seq<Rgb>)
    requires FirstFailure(p, env, n) == None
    ensures |cs| == n
  {
    if n == 0 then [] else Colors(p, env, n - 1) + [PointColor(p, env, n - 1).value]
  }

  /** Colors lists exactly the colours PointColor gives. */
  lemma {:induction false} ColorsAgree(p: Painter, env: Env, n: nat)
    requires FirstFailure(p, env, n) == None
    ensures forall i :: 0 <= i < n ==> Ok(Colors(p, env, n)[i]) == PointColor(p, env, i)
  {
    if n > 0 {
      ColorsAgree(p, env, n - 1);
    }
  }

  // ---------------------------------------------------------------------------
  // Projection and the vertex buffer

  /** The pixel `latLngToPixelXY` builds for a position. */
  function PixelOf(lat: real, lng: real, projectY: real -> real): (r: Pixel)
    ensures r.lat == lat && r.lng == lng && r.key == CellOf(lat, lng)
    ensures r.x == ProjectX(lng) && r.y == projectY(lat)
    ensures -180.0 <= lng <= 180.0 ==> 0.0 <= r.x <= 256.0
  {
    var xy := LatLonToPixelXY(lat, lng, projectY);
    Pixel(lat, lng, xy.x, xy.y, CellOf(lat, lng))
  }

  /** The pixels of a data array, in order. */
  function Pixels(ps: seq<LatLng>, projectY: real -> real): (r: seq<Pixel>)
    ensures |r| == |ps|
  {
    if ps == [] then [] else Pixels(ps[..|ps| - 1], projectY) + [PixelOf(ps[|ps| - 1].lat, ps[|ps| - 1].lng, projectY)]
  }

  /** Pixel i of a data array is the projection of point i. */
  lemma {:induction false} PixelsAgree(ps: seq<LatLng>, projectY: real -> real)
    ensures forall i :: 0 <= i < |ps| ==> Pixels(ps, projectY)[i] == PixelOf(ps[i].lat, ps[i].lng, projectY)
  {
    if ps != [] {
      PixelsAgree(ps[..|ps| - 1], projectY);
    }
  }

  /** Projecting one more point of the data appends its pixel. */
  lemma PixelsAppend(ps: seq<LatLng>, i: nat, projectY: real -> real)
    requires i < |ps|
    ensures Pixels(ps[..i + 1], projectY) == Pixels(ps[..i], projectY) + [PixelOf(ps[i].lat, ps[i].lng, projectY)]
  {
    assert ps[..i + 1][..i] == ps[..i];
  }

  /** Every pixel of a data array carries the key of its own position. */
  lemma PixelsKeyed(ps: seq<LatLng>, projectY: real -> real)
    ensures forall p :: p in Pixels(ps, projectY) ==> p.key == CellOf(p.lat, p.lng)
  {
    PixelsAgree(ps, projectY);
  }

  /** Indexing one more pixel is one more Insert. */
  lemma IndexOfAppend(ps: seq<Pixel>, p: Pixel)
    ensures IndexOf(ps + [p]) == Insert(IndexOf(ps), p)
  {
    assert (ps + [p])[..|ps|] == ps;
  }

  /** One point's five entries of the buffer: 2 coordinates, 3 colour channels. */
  function Entry(p: Pixel, c: Rgb): seq<Channel> {
    [Num(p.x), Num(p.y), c.r, c.g, c.b]
  }

  /** The interleaved buffer of `render`. */
  function Interleave(pixels: seq<Pixel>, colors: seq<Rgb>): (r: seq<Channel>)
    requires |pixels| == |colors|
    ensures |r| == 5 * |pixels|
    ensures pixels != [] ==> r[|r| - 5..] == Entry(pixels[|pixels| - 1], colors[|colors| - 1])
  {
    if pixels == [] then []
    else Interleave(pixels[..|pixels| - 1], colors[..|colors| - 1]) + Entry(pixels[|pixels| - 1], colors[|colors| - 1])
  }

  /** Appending a point appends its five entries. */
  lemma InterleaveAppend(pixels: seq<Pixel>, colors: seq<Rgb>, p: Pixel, c: Rgb)
    requires |pixels| == |colors|
    ensures Interleave(pixels + [p], colors + [c]) == Interleave(pixels, colors) + Entry(p, c)
  {
    assert (pixels + [p])[..|pixels|] == pixels;
    assert (colors + [c])[..|colors|] == colors;
  }

  /** The buffer layout the shader attributes assume: stride 5, the position
      of point i at entries 5i and 5i+1, its colour at 5i+2 .. 5i+4. */
  lemma {:induction false} InterleaveLayout(pixels: seq<Pixel>, colors: seq<Rgb>)
    requires |pixels| == |colors|
    ensures |Interleave(pixels, colors)| == 5 * |pixels|
    ensures forall i :: 0 <= i < |pixels| ==> Interleave(pixels, colors)[5 * i..5 * i + 5] == Entry(pixels[i], colors[i])
  {
    if pixels != [] {
      var n := |pixels|;
      var front := Interleave(pixels[..n - 1], colors[..n - 1]);
      InterleaveLayout(pixels[..n - 1], colors[..n - 1]);
      var all := Interleave(pixels, colors);
      assert all == front + Entry(pixels[n - 1], colors[n - 1]);
      forall i | 0 <= i < n
        ensures all[5 * i..5 * i + 5] == Entry(pixels[i], colors[i])
      {
        if i < n - 1 {
          assert all[5 * i..5 * i + 5] == front[5 * i..5 * i + 5];
          assert pixels[..n - 1][i] == pixels[i] && colors[..n - 1][i] == colors[i];
        } else {
          assert all[5 * i..5 * i + 5] == all[|front|..];
        }
      }
    }
  }

  /** `settings.data.length`, as drawArrays receives it. Reading it off null
      or undefined throws (None). An array or a string has its length, a
      function its declared parameter count; any other value has no `length`,
      which drawArrays reads as 0. */
  function DataCount(data: Value): (r: Option<nat>)
    ensures r.None? <==> Nullish(data)
    ensures data.Coordinates? ==> r == Some(|data.items|)
  {
    match data
    case Undefined => None
    case Null => None
    case Coordinates(items) => Some(|items|)
    case Text(s) => Some(|s|)
    case Function(fn) => Some(if fn.UserFunction? then fn.arity else 0)
    case _ => Some(0)
  }

  /** The draw a frame issues. */
  datatype DrawCall = DrawCall(pointSize: real, count: nat)

  // ---------------------------------------------------------------------------
  // The layer

  class Points {
    var settings: map<string, Value>
    var verts: seq<Channel>
    var latLngLookup: Index
    /** Whether the canvas handed out a WebGL context. */
    const gl: bool
    const canvasWidth: real
    const canvasHeight: real
    /** The y half of the projection (Mercator, with `sin` and `log`). */
    const projectY: real -> real
    const pixelsToWebGLMatrix: array<real>
    const mapMatrix: array<real>

    ghost predicate Valid()
      reads this
    {
      && pixelsToWebGLMatrix.Length == 16
      && mapMatrix.Length == 16
      && pixelsToWebGLMatrix != mapMatrix
      && canvasWidth > 0.0 && canvasHeight > 0.0
      && KeysAgree(latLngLookup)
    }

    /** The settings object has exactly the keys of Points.defaults. */
    ghost predicate Shaped()
      reads this
    {
      settings.Keys == DefaultSettings.Keys
    }

    /** The click index holds exactly the current data's points. */
    ghost predicate Indexed()
      reads this
    {
      var data := Get(settings, "data");
      data.Coordinates? && latLngLookup == IndexOf(Pixels(data.items, projectY))
    }

    constructor (settings: map<string, Value>, width: real, height: real, gl: bool, projectY: real -> real)
      requires settings.Keys == DefaultSettings.Keys
      requires width > 0.0 && height > 0.0
      ensures Valid() && Shaped()
      ensures this.settings == settings && verts == [] && latLngLookup == map[]
      ensures this.gl == gl && canvasWidth == width && canvasHeight == height && this.projectY == projectY
      ensures fresh(pixelsToWebGLMatrix) && fresh(mapMatrix)
    {
      this.settings := settings;
      this.gl := gl;
      canvasWidth := width;
      canvasHeight := height;
      this.projectY := projectY;
      verts := [];
      latLngLookup := map[];
      pixelsToWebGLMatrix := new real[16](_ => 0.0);
      mapMatrix := new real[16](_ => 0.0);
    }

    /** Projects a position and appends the pixel to its cell's bucket. */
    method LatLngToPixelXY(lat: real, lng: real) returns (pixel: Pixel)
      requires Valid()
      modifies this`latLngLookup
      ensures Valid()
      ensures pixel == PixelOf(lat, lng, projectY)
      ensures latLngLookup == Insert(old(latLngLookup), pixel)
    {
      var xy := LatLonToPixelXY(lat, lng, projectY);
      var key := CellOf(lat, lng);
      pixel := Pixel(lat, lng, xy.x, xy.y, key);
      var lookup := if key in latLngLookup then latLngLookup[key] else [];
      latLngLookup := latLngLookup[key := lookup + [pixel]];
      InsertKeepsKeysAgree(old(latLngLookup), pixel);
    }

    /** Writes the canvas-pixels-to-clip matrix into pixelsToWebGLMatrix. */
    method SetBaseMatrix()
      requires Valid()
      modifies pixelsToWebGLMatrix
      ensures pixelsToWebGLMatrix[..] == Base(canvasWidth, canvasHeight)
    {
      var b := Base(canvasWidth, canvasHeight);
      forall i | 0 <= i < 16 {
        pixelsToWebGLMatrix[i] := b[i];
      }
    }

    /** Scales the first two columns of mapMatrix in place. */
    method ScaleMatrix(scaleX: real, scaleY: real)
      requires Valid()
      modifies mapMatrix
      ensures mapMatrix[..] == Scaled(old(mapMatrix[..]), scaleX, scaleY)
    {
      ghost var m := mapMatrix[..];
      mapMatrix[0] := mapMatrix[0] * scaleX;
      mapMatrix[1] := mapMatrix[1] * scaleX;
      mapMatrix[2] := mapMatrix[2] * scaleX;
      mapMatrix[3] := mapMatrix[3] * scaleX;

      mapMatrix[4] := mapMatrix[4] * scaleY;
      mapMatrix[5] := mapMatrix[5] * scaleY;
      mapMatrix[6] := mapMatrix[6] * scaleY;
      mapMatrix[7] := mapMatrix[7] * scaleY;

      ghost var n := mapMatrix[..];
      assert && n[0] == m[0] * scaleX && n[1] == m[1] * scaleX && n[2] == m[2] * scaleX && n[3] == m[3] * scaleX
             && n[4] == m[4] * scaleY && n[5] == m[5] * scaleY && n[6] == m[6] * scaleY && n[7] == m[7] * scaleY
             && n[8..] == m[8..];
      ScaledEntries(m, n, scaleX, scaleY);
    }

    /** Adds tx times the first column and ty times the second to the last
      column of mapMatrix, in place. */
    method TranslateMatrix(tx: real, ty: real)
      requires Valid()
      modifies mapMatrix
      ensures mapMatrix[..] == Translated(old(mapMatrix[..]), tx, ty)
    {
      ghost var m := mapMatrix[..];
      mapMatrix[12] := mapMatrix[12] + (mapMatrix[0] * tx + mapMatrix[4] * ty);
      mapMatrix[13] := mapMatrix[13] + (mapMatrix[1] * tx + mapMatrix[5] * ty);
      mapMatrix[14] := mapMatrix[14] + (mapMatrix[2] * tx + mapMatrix[6] * ty);
      mapMatrix[15] := mapMatrix[15] + (mapMatrix[3] * tx + mapMatrix[7] * ty);

      ghost var n := mapMatrix[..];
      assert && n[..12] == m[..12]
             && n[12] == m[12] + (m[0] * tx + m[4] * ty) && n[13] == m[13] + (m[1] * tx + m[5] * ty)
             && n[14] == m[14] + (m[2] * tx + m[6] * ty) && n[15] == m[15] + (m[3] * tx + m[7] * ty);
      TranslatedEntries(m, n, tx, ty);
    }

    /** Replaces the data; the buffer and the index keep the old data until
      the next render. */
    method SetData(data: Value)
      requires Valid()
      modifies this`settings
      ensures Valid() && (old(Shaped()) ==> Shaped())
      ensures settings == old(settings)["data" := data]
      ensures verts == old(verts) && latLngLookup == old(latLngLookup)
    {
      assert "data" in DefaultSettings;
      settings := settings["data" := data];
    }

    /** The loop of `render` over the data, starting from an empty buffer and
      index: each point is projected and indexed, then coloured and appended
      to the buffer; the first point whose colour throws stops the loop. */
    method Paint(painter: Painter, ps: seq<LatLng>, env: Env) returns (failed: Option<nat>)
      requires Valid() && verts == [] && latLngLookup == map[]
      modifies this`verts, this`latLngLookup
      ensures Valid()
      ensures failed == FirstFailure(painter, env, |ps|)
      ensures match failed
              case Some(i) =>
                && verts == Interleave(Pixels(ps[..i], projectY), Colors(painter, env, i))
                && latLngLookup == IndexOf(Pixels(ps[..i + 1], projectY))
              case None =>
                && verts == Interleave(Pixels(ps, projectY), Colors(painter, env, |ps|))
                && latLngLookup == IndexOf(Pixels(ps, projectY))
    {
      var i := 0;
      while i < |ps|
        invariant 0 <= i <= |ps|
        invariant Valid()
        invariant FirstFailure(painter, env, i) == None
        invariant verts == Interleave(Pixels(ps[..i], projectY), Colors(painter, env, i))
        invariant latLngLookup == IndexOf(Pixels(ps[..i], projectY))
      {
        var pixel := LatLngToPixelXY(ps[i].lat, ps[i].lng);
        PixelsAppend(ps, i, projectY);
        IndexOfAppend(Pixels(ps[..i], projectY), pixel);
        var color := PointColor(painter, env, i);
        if color.Err? {
          FirstFailureAt(painter, env, |ps|, i);
          return Some(i);
        }
        verts := verts + [Num(pixel.x), Num(pixel.y), color.value.r, color.value.g, color.value.b];
        InterleaveAppend(Pixels(ps[..i], projectY), Colors(painter, env, i), pixel, color.value);
        i := i + 1;
      }
      assert ps[..i] == ps;
      failed := None;
    }

    /** Empties the buffer and the index, then paints every data point in
      order. A colour that throws at point i (a TypeError, or the exception of
      the user's function) leaves the buffer with the points before i and the
      index with the points up to and including i; a colour
      setting that is null or undefined, or data that is not an array, throws
      before any point. Without a WebGL context the matrix upload throws after
      the loop. */
    method Render(env: Env) returns (thrown: Option<Error>)
      requires Valid()
      modifies this`verts, this`latLngLookup, pixelsToWebGLMatrix
      ensures Valid()
      ensures var painter := ResolveColor(Get(settings, "color"));
              var data := Get(settings, "data");
              if painter.Err? || !data.Coordinates? then
                thrown == Some(TypeError) && verts == [] && latLngLookup == map[]
              else
                var ps := data.items;
                match FirstFailure(painter.value, env, |ps|)
                case Some(i) =>
                  && thrown == Some(PointColor(painter.value, env, i).error)
                  && verts == Interleave(Pixels(ps[..i], projectY), Colors(painter.value, env, i))
                  && latLngLookup == IndexOf(Pixels(ps[..i + 1], projectY))
                case None =>
                  && verts == Interleave(Pixels(ps, projectY), Colors(painter.value, env, |ps|))
                  && latLngLookup == IndexOf(Pixels(ps, projectY))
                  && thrown == (if gl then None else Some(TypeError))
      ensures thrown.None? ==> Indexed() && pixelsToWebGLMatrix[..] == Base(canvasWidth, canvasHeight)
      ensures thrown.Some? ==> unchanged(pixelsToWebGLMatrix)
    {
      verts := [];
      latLngLookup := map[];
      var painter := ResolveColor(Get(settings, "color"));
      if painter.Err? {
        return Some(TypeError);
      }
      var data := Get(settings, "data");
      if !data.Coordinates? {
        return Some(TypeError);
      }
      var failed := Paint(painter.value, data.items, env);
      if failed.Some? {
        return Some(PointColor(painter.value, env, failed.value).error);
      }
      if !gl {
        return Some(TypeError);
      }
      SetBaseMatrix();
      thrown := None;
    }

    /** The matrices of a frame: pixelsToWebGLMatrix gets the base matrix, and
      mapMatrix a copy of it scaled by `scale` and then translated by minus
      the offset (ox, oy). */
    method SetFrame(scale: real, ox: real, oy: real)
      requires Valid()
      modifies pixelsToWebGLMatrix, mapMatrix
      ensures pixelsToWebGLMatrix[..] == Base(canvasWidth, canvasHeight)
      ensures mapMatrix[..] == Frame(canvasWidth, canvasHeight, scale, ox, oy)
    {
      SetBaseMatrix();
      forall i | 0 <= i < 16 {
        mapMatrix[i] := pixelsToWebGLMatrix[i];
      }
      assert mapMatrix[..] == Base(canvasWidth, canvasHeight);
      ScaleMatrix(scale, scale);
      TranslateMatrix(-ox, -oy);
    }

    /** The frame as the source draws it. Without a WebGL context it does
      nothing (Ok(None)). Otherwise it projects the viewport's top-left corner
      with latLngToPixelXY, which also inserts that corner into the click
      index, sets the matrices, and draws `settings.data.length` points; when
      the data is null or undefined reading that length throws, after the
      corner and the matrices are in place. */
    method DrawOnCanvas(zoom: int, north: real, west: real) returns (r: Result<Option<DrawCall>, Error>)
      requires Valid()
      modifies this`latLngLookup, pixelsToWebGLMatrix, mapMatrix
      ensures Valid()
      ensures !gl ==> r == Ok(None) && latLngLookup == old(latLngLookup)
                      && unchanged(pixelsToWebGLMatrix) && unchanged(mapMatrix)
      ensures gl ==>
                var corner := PixelOf(north, west, projectY);
                var count := DataCount(Get(settings, "data"));
                && latLngLookup == Insert(old(latLngLookup), corner)
                && pixelsToWebGLMatrix[..] == Base(canvasWidth, canvasHeight)
                && mapMatrix[..] == Frame(canvasWidth, canvasHeight, Pow2(zoom), corner.x, corner.y)
                && r == (if count.None? then Err(TypeError) else Ok(Some(DrawCall(PointSize(zoom), count.value))))
    {
      if !gl {
        return Ok(None);
      }
      var offset := LatLngToPixelXY(north, west);
      var scale := Pow2(zoom);
      var pointSize := PointSize(zoom);
      SetFrame(scale, offset.x, offset.y);
      var count := DataCount(Get(settings, "data"));
      if count.None? {
        return Err(TypeError);
      }
      r := Ok(Some(DrawCall(pointSize, count.value)));
    }

    /** The frame with the corner projected without touching the index: the
      matrices and the draw are those of DrawOnCanvas, the index is left as
      it was. */
    method DrawFrame(zoom: int, north: real, west: real) returns (r: Result<Option<DrawCall>, Error>)
      requires Valid()
      modifies pixelsToWebGLMatrix, mapMatrix
      ensures Valid() && Indexed() == old(Indexed())
      ensures latLngLookup == old(latLngLookup)
      ensures !gl ==> r == Ok(None) && unchanged(pixelsToWebGLMatrix) && unchanged(mapMatrix)
      ensures gl ==>
                var corner := PixelOf(north, west, projectY);
                var count := DataCount(Get(settings, "data"));
                && pixelsToWebGLMatrix[..] == Base(canvasWidth, canvasHeight)
                && mapMatrix[..] == Frame(canvasWidth, canvasHeight, Pow2(zoom), corner.x, corner.y)
                && r == (if count.None? then Err(TypeError) else Ok(Some(DrawCall(PointSize(zoom), count.value))))
    {
      if !gl {
        return Ok(None);
      }
      var offset := PixelOf(north, west, projectY);
      var scale := Pow2(zoom);
      var pointSize := PointSize(zoom);
      SetFrame(scale, offset.x, offset.y);
      var count := DataCount(Get(settings, "data"));
      if count.None? {
        return Err(TypeError);
      }
      r := Ok(Some(DrawCall(pointSize, count.value)));
    }

    /** The innermost loop of lookup: every point stored under `key` is stamped
        with that key and pushed onto the candidates, in bucket order. */
    method AppendBucket(matches: seq<Pixel>, key: Cell) returns (r: seq<Pixel>)
      requires Valid()
      ensures r == matches + Bucket(latLngLookup, key)
    {
      r := matches;
      if key in latLngLookup {
        var found := latLngLookup[key];
        var foundI := 0;
        while foundI < |found|
          invariant 0 <= foundI <= |found|
          invariant r == matches + found[..foundI]
        {
          assert found[foundI].(key := key) == found[foundI];
          r := r + [found[foundI].(key := key)];
          foundI := foundI + 1;
        }
        assert found[..foundI] == found;
      }
    }

    /** One row of lookup's scan: the seven cells of latitude row `x` from
        three hundredths west of `lng` to three east, their buckets appended
        to `matches` west to east. */
    method ScanRow(matches: seq<Pixel>, x: real, lng: real) returns (r: seq<Pixel>)
      requires Valid()
      ensures r == matches + RowScan(latLngLookup, Hundredths(x), Hundredths(lng) - Reach, 2 * Reach + 1)
    {
      var lng0 := Hundredths(lng) - Reach;
      var y := lng - 0.03;
      var yMax := lng + 0.03;
      r := matches;
      ghost var cols := 0;
      while y <= yMax
        invariant 0 <= cols <= 2 * Reach + 1
        invariant y == lng - 0.03 + cols as real / 100.0
        invariant r == matches + RowScan(latLngLookup, Hundredths(x), lng0, cols)
        decreases 2 * Reach + 1 - cols
      {
        ScanStep(lng, cols);
        ScanRowsAreConsecutive(lng, cols);
        var key := CellOf(x, y);
        assert key == Cell(Hundredths(x), lng0 + cols);
        r := AppendBucket(r, key);
        y := y + 0.01;
        cols := cols + 1;
      }
      ScanStep(lng, cols);
    }

    /** The scan of lookup: the cells of the 7×7 window around the click, row
        by row and column by column, their buckets collected in that order
        (each point's key rewritten to the scanned key, which it already
        carries). */
    method Scan(coords: LatLng) returns (matches: seq<Pixel>)
      requires Valid()
      ensures matches == Window(latLngLookup, CellOf(coords.lat, coords.lng))
    {
      var center := CellOf(coords.lat, coords.lng);
      var lat0 := center.lat - Reach;
      var x := coords.lat - 0.03;
      var xMax := coords.lat + 0.03;
      matches := [];
      ghost var rows := 0;
      while x <= xMax
        invariant 0 <= rows <= 2 * Reach + 1
        invariant x == coords.lat - 0.03 + rows as real / 100.0
        invariant matches == GridScan(latLngLookup, lat0, center.lng - Reach, rows, 2 * Reach + 1)
        decreases 2 * Reach + 1 - rows
      {
        ScanStep(coords.lat, rows);
        ScanRowsAreConsecutive(coords.lat, rows);
        matches := ScanRow(matches, x, coords.lng);
        x := x + 0.01;
        rows := rows + 1;
      }
      ScanStep(coords.lat, rows);
    }

    /** The click lookup: the nearest of the scanned candidates; an empty
        window throws. */
    method Lookup(coords: LatLng) returns (r: Result<Pixel, Error>)
      requires Valid()
      ensures r == ClosestPoint(coords, Window(latLngLookup, CellOf(coords.lat, coords.lng)))
    {
      var matches := Scan(coords);
      r := ClosestPoint(coords, matches);
    }
  }

  /** Constructs a layer: merges the settings, checks the required ones, fails
    in setup without a WebGL context, then renders. */
  method NewPoints(user: map<string, Value>, width: real, height: real, gl: bool, projectY: real -> real, env: Env)
    returns (r: Result<Points, Error>)
    requires width > 0.0 && height > 0.0
    ensures MissingSetting(user, RequiredSettings).Some? ==> r == Err(MissingSetting(user, RequiredSettings).value)
    ensures MissingSetting(user, RequiredSettings).None? && !gl ==> r == Err(TypeError)
    ensures MissingSetting(user, RequiredSettings).None? && gl ==>
              var settings := Merged(user, DefaultSettings);
              var painter := ResolveColor(Get(settings, "color"));
              var data := Get(settings, "data");
              && (r.Ok? <==> painter.Ok? && data.Coordinates? && FirstFailure(painter.value, env, |data.items|).None?)
              && (painter.Err? || !data.Coordinates? ==> r == Err(TypeError))
              && (painter.Ok? && data.Coordinates? && FirstFailure(painter.value, env, |data.items|).Some? ==>
                    r == Err(PointColor(painter.value, env, FirstFailure(painter.value, env, |data.items|).value).error))
    ensures r.Ok? ==> && fresh(r.value) && r.value.Valid() && r.value.Shaped() && r.value.Indexed()
                      && r.value.settings == Merged(user, DefaultSettings)
                      && r.value.gl && r.value.projectY == projectY
                      && r.value.canvasWidth == width && r.value.canvasHeight == height
    ensures r.Ok? ==>
              var settings := Merged(user, DefaultSettings);
              var painter := ResolveColor(Get(settings, "color"));
              var data := Get(settings, "data");
              && painter.Ok? && data.Coordinates? && FirstFailure(painter.value, env, |data.items|).None?
              && r.value.verts == Interleave(Pixels(data.items, projectY), Colors(painter.value, env, |data.items|))
              && r.value.pixelsToWebGLMatrix[..] == Base(width, height)
  {
    var settings := Defaults(user, DefaultSettings);
    var missing := MissingSetting(user, RequiredSettings);
    if missing.Some? {
      return Err(missing.value);
    }
    if !gl {
      return Err(TypeError);
    }
    var layer := new Points(settings, width, height, gl, projectY);
    var thrown := layer.Render(env);
    if thrown.Some? {
      return Err(thrown.value);
    }
    return Ok(layer);
  }

  // ---------------------------------------------------------------------------
  // Properties of a click on an indexed layer

  /** On an index built from data `ps`, a click's result is one of the data's
    pixels, less than 0.04° from the click on both axes, and nearest among
    the candidates; and whenever some data point lies within 0.03° of the
    click on both axes the click finds a point at least as near as that one. */
  lemma ClickOnIndexedData(ps: seq<LatLng>, projectY: real -> real, c: LatLng, q: Pixel)
    ensures var r := ClosestPoint(c, Window(IndexOf(Pixels(ps, projectY)), CellOf(c.lat, c.lng)));
            r.Ok? ==> r.value in Pixels(ps, projectY)
                      && -0.04 < r.value.lat - c.lat < 0.04 && -0.04 < r.value.lng - c.lng < 0.04
    ensures var r := ClosestPoint(c, Window(IndexOf(Pixels(ps, projectY)), CellOf(c.lat, c.lng)));
            q in Pixels(ps, projectY) && -0.03 <= q.lat - c.lat <= 0.03 && -0.03 <= q.lng - c.lng <= 0.03
            ==> r.Ok? && Dist2(c, r.value) <= Dist2(c, q)
  {
    var pixels := Pixels(ps, projectY);
    var window := Window(IndexOf(pixels), CellOf(c.lat, c.lng));
    PixelsKeyed(ps, projectY);
    var r := ClosestPoint(c, window);
    if r.Ok? {
      WindowOnlyNear(pixels, r.value, c.lat, c.lng);
    }
    if q in pixels && -0.03 <= q.lat - c.lat <= 0.03 && -0.03 <= q.lng - c.lng <= 0.03 {
      WindowFindsNeighbours(pixels, q, c.lat, c.lng);
      var j := ClosestPointIsLastNearest(c, window);
      var k :| 0 <= k < |window| && window[k] == q;
    }
  }

  /** The as-written frame leaves a phantom point behind: with no data at all,
    a click on the viewport's top-left corner throws, but after one frame the
    same click returns the corner's pixel, which is not a data point. */
  lemma CornerBecomesHit(corner: LatLng, projectY: real -> real)
    ensures var idx := IndexOf(Pixels([], projectY));
            ClosestPoint(corner, Window(idx, CellOf(corner.lat, corner.lng))) == Err(TypeError)
    ensures var p := PixelOf(corner.lat, corner.lng, projectY);
            var idx := Insert(IndexOf(Pixels([], projectY)), p);
            && p !in Pixels([], projectY)
            && ClosestPoint(corner, Window(idx, CellOf(corner.lat, corner.lng))) == Ok(p)
  {
    var p := PixelOf(corner.lat, corner.lng, projectY);
    var empty := IndexOf(Pixels([], projectY));
    assert empty == map[];
    assert Bucket(empty, p.key) == [];
    var w0 := Window(empty, CellOf(corner.lat, corner.lng));
    if w0 != [] {
      var q := w0[0];
      WindowMembers(empty, CellOf(corner.lat, corner.lng), q);
      assert false;
    }
    var idx := Insert(empty, p);
    InsertKeepsKeysAgree(empty, p);
    assert idx.Keys == {p.key} && idx[p.key] == [p];
    var w := Window(idx, CellOf(corner.lat, corner.lng));
    WindowMembers(idx, CellOf(corner.lat, corner.lng), p);
    assert p in w;
    forall q | q in w ensures q == p {
      WindowMembers(idx, CellOf(corner.lat, corner.lng), q);
    }
    var r := ClosestPoint(corner, w);
  }
}
