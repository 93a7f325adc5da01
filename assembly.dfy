/** The decisions `initialize` takes (js/novicell.map.js, lines 44-128) apart
    from its calls into Google Maps: the icon record, the markers made from the
    configured list, and the zoom rule of the one-shot idle listener. */
module Assembly {
  import opened JsValue

  /** An exception that ends `initialize`: a TypeError thrown by reading the
      named property of null or undefined, or the SyntaxError `querySelector`
      throws for a string that is not a valid selector. */
  datatype Exception = TypeError(reading: string) | SyntaxError

  datatype Result<T> = Ok(value: T) | Err(error: Exception)

  /** `new google.maps.Size(width, height)`, by its arguments. */
  datatype Size = Size(width: Option<Value>, height: Option<Value>)

  /** The `icon` object shared by all markers; a missing field is None. */
  datatype Icon = Icon(url: Option<Value>, scaledSize: Option<Size>)

  /** `new google.maps.Marker({...})`, by the inputs the plugin gives it:
      the title and the raw `lat` and `lng` it parses into the position. */
  datatype MapMarker = MapMarker(title: Option<Value>, lat: Option<Value>, lng: Option<Value>, icon: Icon)

  /** The size record for `options.icon.size`. */
  function SizeOf(size: Value): Result<Size> {
    if size.Null? then Err(TypeError("width"))
    else Ok(Size(Prop(size, "width"), Prop(size, "height")))
  }

  /** The icon built field by field from `options.icon`. */
  function BuildIcon(opts: Object): (r: Result<Icon>)
    ensures "icon" !in opts ==> r == Ok(Icon(None, None))
    ensures "icon" in opts ==>
      var icon := opts["icon"];
      && (r.Err? <==> icon.Null? || (HasOwn(icon, "size") && icon.fields["size"].Null?))
      && (r.Ok? ==> r.value.url == Prop(icon, "url"))
      && (r.Ok? ==> (r.value.scaledSize.Some? <==> HasOwn(icon, "size")))
      && (r.Ok? && r.value.scaledSize.Some? ==>
            r.value.scaledSize.value == Size(Prop(icon.fields["size"], "width"), Prop(icon.fields["size"], "height")))
  {
    if "icon" !in opts then Ok(Icon(None, None))
    else
      var icon := opts["icon"];
      if icon.Null? then Err(TypeError("hasOwnProperty"))
      else
        var url := if HasOwn(icon, "url") then Some(icon.fields["url"]) else None;
        if HasOwn(icon, "size") then
          match SizeOf(icon.fields["size"])
          case Err(e) => Err(e)
          case Ok(size) => Ok(Icon(url, Some(size)))
        else Ok(Icon(url, None))
  }

  /** What the loop `for (i = 0; i < options.markers.length; i++)` visits:
      `options.markers[i]` for each i below the length. Reading `length` of
      undefined or null throws; a string is indexed by character; a number or
      boolean has no length, so the loop does not run. */
  function MarkerEntries(markers: Option<Value>): (r: Result<seq<Value>>)
    ensures r.Err? <==> markers.None? || markers.value.Null?
    ensures markers.Some? && markers.value.Arr? ==> r == Ok(markers.value.items)
    ensures markers.Some? && markers.value.Str? ==>
      r.Ok? && |r.value| == |markers.value.s| &&
      forall i :: 0 <= i < |r.value| ==> r.value[i] == Str([markers.value.s[i]])
    ensures markers.Some? && (markers.value.Bool? || markers.value.Num? || markers.value.Obj?) ==>
      r == Ok([])
  {
    match markers
    case None => Err(TypeError("length"))
    case Some(Null) => Err(TypeError("length"))
    case Some(Arr(items)) => Ok(items)
    case Some(Str(s)) => Ok(seq(|s|, i requires 0 <= i < |s| => Str([s[i]])))
    case Some(_) => Ok([])
  }

  /** The marker made for one entry; reading `lat` of a null entry throws. */
  function MarkerFor(entry: Value, icon: Icon): Option<MapMarker> {
    if entry.Null? then None
    else Some(MapMarker(Prop(entry, "title"), Prop(entry, "lat"), Prop(entry, "lng"), icon))
  }

  /** The markers the loop pushes, in order, and whether it stopped on a throw. */
  datatype Placement = Placement(placed: seq<MapMarker>, failed: bool)

  /** One marker per entry, in order, each with its entry's title and the shared
      icon, up to the first null entry; the loop throws there and only there. */
  function Place(entries: seq<Value>, icon: Icon): (r: Placement)
    ensures |r.placed| <= |entries|
    ensures forall i :: 0 <= i < |r.placed| ==>
      !entries[i].Null? &&
      r.placed[i] == MapMarker(Prop(entries[i], "title"), Prop(entries[i], "lat"), Prop(entries[i], "lng"), icon)
    ensures r.failed <==> |r.placed| < |entries|
    ensures r.failed ==> entries[|r.placed|].Null?
    ensures (forall i :: 0 <= i < |entries| ==> !entries[i].Null?) ==> |r.placed| == |entries|
    decreases |entries|
  {
    if entries == [] then Placement([], false)
    else
      match MarkerFor(entries[0], icon)
      case None => Placement([], true)
      case Some(m) =>
        var rest := Place(entries[1..], icon);
        Placement([m] + rest.placed, rest.failed)
  }

  /** The idle listener's rule: a zoom above 16 after fitting the bounds is
      brought down to 15; any zoom up to 16 is kept. */
  function IdleZoom(zoom: int): (z: int)
    ensures z <= 16 && z <= zoom
    ensures zoom <= 16 ==> z == zoom
    ensures zoom > 16 ==> z == 15
  {
    if zoom > 16 then 15 else zoom
  }
}
