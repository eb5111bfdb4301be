// The shared part of the library, L.glify (src/js/glify.js): the settings merge,
// the zoom-0 projection and the named colours with their `pallet` picker.

module Glify {

  datatype Option<T> = None | Some(value: T)

  datatype Result<T, E> = Ok(value: T) | Err(error: E)

  /** What the layer can throw: a required setting missing at construction
      (`new Error('no "…" … setting defined')`), a TypeError raised by
      JavaScript itself, or whatever a user's colour function throws, which
      passes through the layer unchanged. */
  datatype Error = ConfigError(setting: string) | TypeError | UserException

  /** One channel of a colour object as the layer reads it: a number, or
      `undefined` (Unset) when the object has no such property. */
  datatype Channel = Num(v: real) | Unset

  /** A colour object `{r, g, b}`. */
  datatype Rgb = Rgb(r: Channel, g: Channel, b: Channel)

  function Solid(r: real, g: real, b: real): Rgb {
    Rgb(Num(r), Num(g), Num(b))
  }

  const Green: Rgb := Solid(0.0, 1.0, 0.0)
  const Red: Rgb := Solid(1.0, 0.0, 0.0)
  const Blue: Rgb := Solid(0.0, 0.0, 1.0)
  const Teal: Rgb := Solid(0.0, 1.0, 1.0)
  const Yellow: Rgb := Solid(1.0, 1.0, 0.0)

  /** The five colours `pallet` chooses from. */
  const PalletColors: set<Rgb> := {Green, Red, Blue, Teal, Yellow}

  // ---------------------------------------------------------------------------
  // defaults(userSettings, defaults)

  /** Reference definition of the merge: every key of `defs`, taking the user's
      own value whenever the user object has that key. */
  function Merged<V>(user: map<string, V>, defs: map<string, V>): map<string, V> {
    map k | k in defs :: if k in user then user[k] else defs[k]
  }

  /** `defaults` builds a fresh settings object by walking the keys of `defs`.
      Own properties of `user` win even when their value is falsy or undefined;
      keys that only `user` has are dropped. */
  method Defaults<V>(user: map<string, V>, defs: map<string, V>) returns (settings: map<string, V>)
    ensures settings.Keys == defs.Keys
    ensures forall k :: k in settings && k in user ==> settings[k] == user[k]
    ensures forall k :: k in settings && k !in user ==> settings[k] == defs[k]
    ensures settings == Merged(user, defs)
  {
    settings := map[];
    var todo := defs.Keys;
    while todo != {}
      invariant todo <= defs.Keys
      invariant settings.Keys == defs.Keys - todo
      invariant forall k :: k in settings ==> settings[k] == (if k in user then user[k] else defs[k])
      decreases todo
    {
      var k :| k in todo;
      settings := settings[k := if k in user then user[k] else defs[k]];
      todo := todo - {k};
    }
  }

  /** Merging with no user settings gives the defaults back. */
  lemma MergedNothing<V>(defs: map<string, V>)
    ensures Merged(map[], defs) == defs
  {
  }

  /** Merging is idempotent: feeding the merged settings back in changes nothing. */
  lemma MergedIdempotent<V>(user: map<string, V>, defs: map<string, V>)
    ensures Merged(Merged(user, defs), defs) == Merged(user, defs)
  {
  }

  /** A user key outside the defaults never reaches the settings. */
  lemma MergedDropsUnknown<V>(user: map<string, V>, defs: map<string, V>, k: string)
    requires k in user && k !in defs
    ensures k !in Merged(user, defs)
  {
  }

  // ---------------------------------------------------------------------------
  // latLonToPixelXY(latitude, longitude)

  /** A pixel position on the 256×256 world tile of zoom 0. */
  datatype PixelXY = PixelXY(x: real, y: real)

  /** The x half of the projection: longitude spread linearly over 256 pixels. */
  function ProjectX(lng: real): (x: real)
    ensures -180.0 <= lng <= 180.0 ==> 0.0 <= x <= 256.0
    ensures lng == -180.0 ==> x == 0.0
    ensures lng == 180.0 ==> x == 256.0
  {
    ((lng + 180.0) / 360.0) * 256.0
  }

  /** The inverse of ProjectX, from a pixel column back to a longitude. */
  function UnprojectX(x: real): real {
    x / 256.0 * 360.0 - 180.0
  }

  lemma ProjectXRoundTrip(lng: real, x: real)
    ensures UnprojectX(ProjectX(lng)) == lng
    ensures ProjectX(UnprojectX(x)) == x
  {
  }

  lemma ProjectXStrictlyIncreasing(a: real, b: real)
    ensures a < b <==> ProjectX(a) < ProjectX(b)
  {
  }

  /** The projection. The y half is the Mercator formula with `sin` and `log`;
      it is passed in as `projectY` and not interpreted. */
  function LatLonToPixelXY(lat: real, lng: real, projectY: real -> real): (p: PixelXY)
    ensures p.x == ProjectX(lng) && p.y == projectY(lat)
    ensures -180.0 <= lng <= 180.0 ==> 0.0 <= p.x <= 256.0
  {
    PixelXY(ProjectX(lng), projectY(lat))
  }

  // ---------------------------------------------------------------------------
  // color.pallet

  /** JavaScript's Math.round: the nearest integer, halves rounded upward. */
  function JsRound(x: real): (n: int)
    ensures x - 0.5 < n as real <= x + 0.5
  {
    (x + 0.5).Floor
  }

  /** The `switch` of `pallet` on an already rounded choice; any other choice
      falls out of the switch and yields `undefined` (None). */
  function Pallet(choice: int): (c: Option<Rgb>)
    ensures c.Some? <==> 0 <= choice <= 4
    ensures c.Some? ==> c.value in PalletColors
  {
    match choice
    case 0 => Some(Green)
    case 1 => Some(Red)
    case 2 => Some(Blue)
    case 3 => Some(Teal)
    case 4 => Some(Yellow)
    case _ => None
  }

  /** A value of Math.random(). */
  type Unit = u: real | 0.0 <= u < 1.0

  /** `pallet` with its random draw `u`: Math.round(u * 4). */
  function PalletPick(u: real): (r: Option<Rgb>)
    ensures r.Some? <==> -0.125 <= u < 1.125
    ensures r.Some? ==> r.value in PalletColors
  {
    Pallet(JsRound(u * 4.0))
  }

  /** For every value Math.random() can return, `pallet` yields one of its five
      colours and never `undefined`. */
  lemma PalletNeverUndefined(u: Unit)
    ensures PalletPick(u).Some? && PalletPick(u).value in PalletColors
  {
    var n := JsRound(u * 4.0);
    assert 0 <= n <= 4;
  }

  /** Every one of the five colours is reachable from some draw. */
  lemma PalletReachesEveryColor(c: Rgb)
    requires c in PalletColors
    ensures exists u: Unit :: PalletPick(u) == Some(c)
  {
    if c == Green {
      assert PalletPick(0.0) == Some(Green);
    } else if c == Red {
      assert PalletPick(0.25) == Some(Red);
    } else if c == Blue {
      assert PalletPick(0.5) == Some(Blue);
    } else if c == Teal {
      assert PalletPick(0.75) == Some(Teal);
    } else {
      assert PalletPick(0.9) == Some(Yellow);
    }
  }
}
