/** The `novicell.map` singleton (js/novicell.map.js): its closure fields and
    the parts of the page it writes to, updated in place by `init`, `load`, the
    scroll handler, `initialize` and the map's one-shot idle listener. Each
    method is proved against the value-level model of the other modules. */
module NovicellMap {
  import opened JsValue
  import opened Viewport
  import LazyLoad
  import opened OptionsMerge
  import opened Assembly

  /** The icon object filled field by field, as `initialize` does. */
  method FillIcon(opts: Object) returns (r: Result<Icon>)
    ensures r == BuildIcon(opts)
  {
    var icon := Icon(None, None);
    if "icon" in opts {
      var source := opts["icon"];
      if source.Null? {
        return Err(TypeError("hasOwnProperty"));
      }
      if HasOwn(source, "url") {
        icon := icon.(url := Some(source.fields["url"]));
      }
      if HasOwn(source, "size") {
        var size := source.fields["size"];
        if size.Null? {
          return Err(TypeError("width"));
        }
        icon := icon.(scaledSize := Some(Size(Prop(size, "width"), Prop(size, "height"))));
      }
    }
    r := Ok(icon);
  }

  class Plugin {
    /** Closure state of the plugin. */
    var isLoaded: bool
    var options: Object
    var markers: seq<MapMarker>
    /** Page state the plugin writes: `document.onscroll`, the scripts in the
        body, the console's error output. */
    var onscroll: Option<LazyLoad.ScrollHandler>
    var scripts: seq<LazyLoad.Script>
    var errors: seq<LazyLoad.ConsoleError>
    /** Whether the idle listener registered by `initialize` is still in place. */
    var idleListener: bool

    /** The part of the state the lazy-load gate works on. */
    function Gate(): LazyLoad.State
      reads this
    {
      LazyLoad.State(isLoaded, options, onscroll, scripts, errors)
    }

    constructor ()
      ensures Gate() == LazyLoad.Initial() && markers == [] && !idleListener
    {
      isLoaded := false;
      options := map[];
      markers := [];
      onscroll := None;
      scripts := [];
      errors := [];
      idleListener := false;
    }

    /** load: sets the flag and appends the Google Maps script. */
    method Load()
      modifies this`isLoaded, this`scripts
      ensures Gate() == LazyLoad.Load(old(Gate()))
    {
      isLoaded := true;
      var script := LazyLoad.Script("text/javascript", LazyLoad.ScriptPrefix + ToJsString(Get(options, "apiKey")));
      scripts := scripts + [script];
    }

    /** init(opts); `found`, `rect` and `innerHeight` are what the DOM answers
        at the time of the call. */
    method Init(opts: Object, found: Option<LazyLoad.Element>, rect: Rect, innerHeight: real)
      modifies this`isLoaded, this`options, this`onscroll, this`scripts, this`errors
      ensures Gate() == LazyLoad.InitStep(old(Gate()), opts, found, rect, innerHeight)
    {
      options := opts;
      if !Truthy(Get(options, "selector")) {
        errors := errors + [LazyLoad.SelectorNotDefined];
        return;
      }
      if !Truthy(Get(options, "apiKey")) {
        errors := errors + [LazyLoad.ApiKeyNotDefined];
        return;
      }
      var element := found;
      if !isLoaded && element.Some? && IsScrolledIntoView(rect, innerHeight) {
        Load();
      } else {
        onscroll := Some(LazyLoad.ScrollHandler(element));
      }
    }

    /** A scroll event, running whatever handler `document.onscroll` holds;
        `rect` is the bounding box of the element that handler closed over. */
    method Scroll(rect: Rect, innerHeight: real)
      modifies this`isLoaded, this`scripts
      ensures Gate() == LazyLoad.ScrollStep(old(Gate()), rect, innerHeight)
    {
      if onscroll.Some? {
        var element := onscroll.value.element;
        if !isLoaded && element.Some? && IsScrolledIntoView(rect, innerHeight) {
          Load();
        }
      }
    }

    /** The marker loop: one marker pushed per entry, in order, onto the list
        that is never cleared; a null entry throws and ends the loop. */
    method PushMarkers(entries: seq<Value>, icon: Icon) returns (ok: bool)
      modifies this`markers
      ensures markers == old(markers) + Place(entries, icon).placed
      ensures ok == !Place(entries, icon).failed
    {
      var n := |markers|;
      var i := 0;
      while i < |entries|
        invariant 0 <= i <= |entries|
        invariant forall j :: 0 <= j < i ==> !entries[j].Null?
        invariant |markers| == n + i && markers[..n] == old(markers)
        invariant forall j :: 0 <= j < i ==>
          markers[n + j] == MapMarker(Prop(entries[j], "title"), Prop(entries[j], "lat"), Prop(entries[j], "lng"), icon)
      {
        var marker := entries[i];
        if marker.Null? {
          ok := false;
          assert markers == old(markers) + Place(entries, icon).placed;
          return;
        }
        markers := markers + [MapMarker(Prop(marker, "title"), Prop(marker, "lat"), Prop(marker, "lng"), icon)];
        i := i + 1;
      }
      ok := true;
      assert markers == old(markers) + Place(entries, icon).placed;
    }

    /** The callback the Google Maps script invokes: looks up the map element,
        merges the options onto the defaults, builds the icon and the markers,
        and registers the idle listener; `thrown` is the exception that ends it
        early, if any. `lookupThrows` is the DOM's answer to
        `document.querySelector(options.selector)`: whether the selector text
        is invalid, as "" and "0" are. */
    method Initialize(lookupThrows: bool) returns (thrown: Option<Exception>)
      requires Mergeable(Defaults(), options)
      modifies this`options, this`markers, this`idleListener
      ensures lookupThrows ==>
        thrown == Some(SyntaxError) && options == old(options) &&
        markers == old(markers) && idleListener == old(idleListener)
      ensures !lookupThrows ==> options == Merge(Defaults(), old(options))
      ensures !lookupThrows && BuildIcon(options).Err? ==>
        thrown == Some(BuildIcon(options).error) &&
        markers == old(markers) && idleListener == old(idleListener)
      ensures !lookupThrows && BuildIcon(options).Ok? && MarkerEntries(Get(options, "markers")).Err? ==>
        thrown == Some(TypeError("length")) &&
        markers == old(markers) && idleListener == old(idleListener)
      ensures !lookupThrows && BuildIcon(options).Ok? && MarkerEntries(Get(options, "markers")).Ok? ==>
        var placement := Place(MarkerEntries(Get(options, "markers")).value, BuildIcon(options).value);
        && markers == old(markers) + placement.placed
        && (thrown.Some? <==> placement.failed)
        && idleListener == if placement.failed then old(idleListener) else true
    {
      if lookupThrows {
        return Some(SyntaxError);
      }
      options := MergeOptions(Defaults(), options);
      var icon := FillIcon(options);
      if icon.Err? {
        return Some(icon.error);
      }
      var entries := MarkerEntries(Get(options, "markers"));
      if entries.Err? {
        return Some(entries.error);
      }
      var ok := PushMarkers(entries.value, icon.value);
      if !ok {
        return Some(TypeError("lat"));
      }
      idleListener := true;
      thrown := None;
    }

    /** The map's idle event, with the zoom the map has when it fires: the
        listener, if still registered, applies the zoom rule and removes
        itself, so the rule is applied at most once. */
    method Idle(zoom: int) returns (newZoom: int)
      modifies this`idleListener
      ensures !idleListener
      ensures newZoom == if old(idleListener) then IdleZoom(zoom) else zoom
    {
      newZoom := zoom;
      if idleListener {
        if zoom > 16 {
          newZoom := 15;
        }
        idleListener := false;
      }
    }
  }
}
