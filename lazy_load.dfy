/** The lazy-load gate (js/novicell.map.js, lines 13-42 and 130-137): `init`
    validates the options, then either loads the Google Maps script at once or
    installs a scroll handler that loads it once the element comes into view.
    The page is reduced to what the plugin changes: `document.onscroll`, the
    scripts appended to the body and the errors written to the console. */
module LazyLoad {
  import opened JsValue
  import opened Viewport

  const ScriptPrefix: string := "https://maps.googleapis.com/maps/api/js?callback=novicell.map.initialize&key="

  /** A `<script>` element appended to the document body. */
  datatype Script = Script(scriptType: string, src: string)

  /** The two messages `init` writes with console.error. */
  datatype ConsoleError = SelectorNotDefined | ApiKeyNotDefined

  /** A DOM node, by identity. */
  datatype Element = Element(id: nat)

  /** The function `init` assigns to `document.onscroll`; it closes over the
      element `querySelector` returned (None for null). */
  datatype ScrollHandler = ScrollHandler(element: Option<Element>)

  datatype State = State(
    isLoaded: bool,
    options: Object,
    onscroll: Option<ScrollHandler>,
    scripts: seq<Script>,
    errors: seq<ConsoleError>)

  /** The page before the first call: nothing loaded, `options = {}`. */
  function Initial(): State {
    State(false, map[], None, [], [])
  }

  /** The one script `load` appends, for the options in force when it runs. */
  function MapsScript(options: Object): (sc: Script)
    ensures sc.scriptType == "text/javascript"
    ensures |ScriptPrefix| <= |sc.src| && sc.src[..|ScriptPrefix|] == ScriptPrefix
    ensures sc.src[|ScriptPrefix|..] == ToJsString(Get(options, "apiKey"))
  {
    Script("text/javascript", ScriptPrefix + ToJsString(Get(options, "apiKey")))
  }

  /** load: sets the flag and appends the script; nothing else changes. */
  function Load(s: State): (t: State)
    ensures t.isLoaded && t.scripts == s.scripts + [MapsScript(s.options)]
    ensures t.options == s.options && t.onscroll == s.onscroll && t.errors == s.errors
  {
    s.(isLoaded := true, scripts := s.scripts + [MapsScript(s.options)])
  }

  /** The gate's one condition, used both at `init` and on every scroll. */
  predicate Opens(isLoaded: bool, element: Option<Element>, rect: Rect, innerHeight: real) {
    !isLoaded && element.Some? && IsScrolledIntoView(rect, innerHeight)
  }

  /** init(opts): `found` is what `document.querySelector(opts.selector)`
      returns, `rect` that element's bounding box and `innerHeight` the
      window's height at the time of the call. */
  function InitStep(s: State, opts: Object, found: Option<Element>, rect: Rect, innerHeight: real): (t: State)
    ensures t.options == opts
    ensures !Truthy(Get(opts, "selector")) ==>
      t == s.(options := opts, errors := s.errors + [SelectorNotDefined])
    ensures Truthy(Get(opts, "selector")) && !Truthy(Get(opts, "apiKey")) ==>
      t == s.(options := opts, errors := s.errors + [ApiKeyNotDefined])
    ensures (Truthy(Get(opts, "selector")) && Truthy(Get(opts, "apiKey")) &&
             Opens(s.isLoaded, found, rect, innerHeight)) ==>
      t == Load(s.(options := opts))
    ensures (Truthy(Get(opts, "selector")) && Truthy(Get(opts, "apiKey")) &&
             !Opens(s.isLoaded, found, rect, innerHeight)) ==>
      t == s.(options := opts, onscroll := Some(ScrollHandler(found)))
  {
    var s1 := s.(options := opts);
    if !Truthy(Get(opts, "selector")) then
      s1.(errors := s.errors + [SelectorNotDefined])
    else if !Truthy(Get(opts, "apiKey")) then
      s1.(errors := s.errors + [ApiKeyNotDefined])
    else if Opens(s.isLoaded, found, rect, innerHeight) then
      Load(s1)
    else
      s1.(onscroll := Some(ScrollHandler(found)))
  }

  /** A scroll event: `rect` is the bounding box of the element the installed
      handler closed over, at the time of the event. */
  function ScrollStep(s: State, rect: Rect, innerHeight: real): (t: State)
    ensures t.options == s.options && t.onscroll == s.onscroll && t.errors == s.errors
    ensures s.onscroll.Some? && Opens(s.isLoaded, s.onscroll.value.element, rect, innerHeight) ==>
      t == Load(s)
    ensures !(s.onscroll.Some? && Opens(s.isLoaded, s.onscroll.value.element, rect, innerHeight)) ==>
      t == s
  {
    match s.onscroll
    case None => s
    case Some(h) => if Opens(s.isLoaded, h.element, rect, innerHeight) then Load(s) else s
  }

  datatype Event =
    | Init(opts: Object, found: Option<Element>, rect: Rect, innerHeight: real)
    | Scroll(rect: Rect, innerHeight: real)

  function Step(s: State, e: Event): State {
    match e
    case Init(opts, found, rect, h) => InitStep(s, opts, found, rect, h)
    case Scroll(rect, h) => ScrollStep(s, rect, h)
  }

  /** The page after a sequence of calls and scroll events, in order. */
  function Run(s: State, events: seq<Event>): State
    decreases |events|
  {
    if events == [] then s else Run(Step(s, events[0]), events[1..])
  }

  /** The flag and the body agree: one script once loaded, none before. */
  predicate LoadedOnce(s: State) {
    |s.scripts| == if s.isLoaded then 1 else 0
  }

  lemma StepKeepsLoadedOnce(s: State, e: Event)
    requires LoadedOnce(s)
    ensures LoadedOnce(Step(s, e))
    ensures s.isLoaded ==> Step(s, e).scripts == s.scripts
  {
  }

  /** At most one script is ever appended, over any sequence of `init` calls
      and scroll events, and once appended it stays the only one. */
  lemma {:induction false} RunLoadsAtMostOnce(s: State, events: seq<Event>)
    requires LoadedOnce(s)
    ensures LoadedOnce(Run(s, events))
    ensures |Run(s, events).scripts| <= 1
    ensures s.isLoaded ==> Run(s, events).scripts == s.scripts
    decreases |events|
  {
    if events != [] {
      StepKeepsLoadedOnce(s, events[0]);
      RunLoadsAtMostOnce(Step(s, events[0]), events[1..]);
    }
  }

  lemma FromPageLoadAtMostOneScript(events: seq<Event>)
    ensures |Run(Initial(), events).scripts| <= 1
  {
    RunLoadsAtMostOnce(Initial(), events);
  }

  /** Nothing the gate holds can ever open it: not loaded, no script, and any
      installed handler closed over a missing element. */
  predicate Inert(s: State) {
    !s.isLoaded && s.scripts == [] && (s.onscroll.Some? ==> s.onscroll.value.element.None?)
  }

  /** When the selector never matches, the gate never opens: the script is
      never loaded, silently. */
  lemma {:induction false} MissingElementNeverLoads(s: State, events: seq<Event>)
    requires Inert(s)
    requires forall i :: 0 <= i < |events| && events[i].Init? ==> events[i].found.None?
    ensures Inert(Run(s, events))
    ensures Run(s, events).scripts == []
    decreases |events|
  {
    if events != [] {
      MissingElementNeverLoads(Step(s, events[0]), events[1..]);
    }
  }

  function Scrolls(n: nat, rect: Rect, innerHeight: real): seq<Event> {
    seq(n, i => Scroll(rect, innerHeight))
  }

  /** Scroll events do nothing once the script is loaded. */
  lemma {:induction false} ScrollsAfterLoadAreIdle(s: State, n: nat, rect: Rect, innerHeight: real)
    requires s.isLoaded
    ensures Run(s, Scrolls(n, rect, innerHeight)) == s
    decreases n
  {
    if n > 0 {
      var es := Scrolls(n, rect, innerHeight);
      assert es[1..] == Scrolls(n - 1, rect, innerHeight);
      ScrollsAfterLoadAreIdle(s, n - 1, rect, innerHeight);
    }
  }

  /** Any number of qualifying scroll events on an armed gate append exactly
      one script, built from the options in force. */
  lemma ManyScrollsLoadOnce(s: State, e: Element, n: nat, rect: Rect, innerHeight: real)
    requires !s.isLoaded && s.onscroll == Some(ScrollHandler(Some(e)))
    requires IsScrolledIntoView(rect, innerHeight) && n >= 1
    ensures Run(s, Scrolls(n, rect, innerHeight)).isLoaded
    ensures Run(s, Scrolls(n, rect, innerHeight)).scripts == s.scripts + [MapsScript(s.options)]
  {
    var es := Scrolls(n, rect, innerHeight);
    var t := Step(s, es[0]);
    assert t == Load(s);
    assert es[1..] == Scrolls(n - 1, rect, innerHeight);
    ScrollsAfterLoadAreIdle(t, n - 1, rect, innerHeight);
  }

  /** A rejected `init` still replaces the options but keeps the handler an
      earlier `init` installed, so a later qualifying scroll loads the script
      with the new options' key: with no `apiKey` the URL ends in "undefined". */
  lemma RejectedInitLeavesStaleHandler(s: State, e: Element, opts: Object, found: Option<Element>,
                                      r0: Rect, h0: real, rect: Rect, innerHeight: real)
    requires !s.isLoaded && s.onscroll == Some(ScrollHandler(Some(e)))
    requires !Truthy(Get(opts, "selector")) && "apiKey" !in opts
    requires IsScrolledIntoView(rect, innerHeight)
    ensures Run(s, [Init(opts, found, r0, h0), Scroll(rect, innerHeight)]).scripts ==
      s.scripts + [Script("text/javascript", ScriptPrefix + "undefined")]
  {
    var es := [Init(opts, found, r0, h0), Scroll(rect, innerHeight)];
    var t := InitStep(s, opts, found, r0, h0);
    assert t == s.(options := opts, errors := s.errors + [SelectorNotDefined]);
    assert ScrollStep(t, rect, innerHeight) == Load(t);
    assert es[1..] == [Scroll(rect, innerHeight)] && [Scroll(rect, innerHeight)][1..] == [];
    assert Run(s, es) == Run(t, [Scroll(rect, innerHeight)]) == Load(t);
  }

  /** A valid `init` on a fresh page whose element is below the window installs
      the handler and loads nothing; the first scroll that brings the element
      into view then appends exactly the script for those options. */
  lemma ArmThenScrollLoads(opts: Object, e: Element, below: Rect, h0: real, rect: Rect, innerHeight: real)
    requires Truthy(Get(opts, "selector")) && Truthy(Get(opts, "apiKey"))
    requires !IsScrolledIntoView(below, h0) && IsScrolledIntoView(rect, innerHeight)
    ensures InitStep(Initial(), opts, Some(e), below, h0).scripts == []
    ensures InitStep(Initial(), opts, Some(e), below, h0).onscroll == Some(ScrollHandler(Some(e)))
    ensures Run(Initial(), [Init(opts, Some(e), below, h0), Scroll(rect, innerHeight)]).scripts == [MapsScript(opts)]
  {
    var es := [Init(opts, Some(e), below, h0), Scroll(rect, innerHeight)];
    var t := InitStep(Initial(), opts, Some(e), below, h0);
    assert t == Initial().(options := opts, onscroll := Some(ScrollHandler(Some(e))));
    assert es[1..] == [Scroll(rect, innerHeight)] && [Scroll(rect, innerHeight)][1..] == [];
    assert Run(Initial(), es) == Run(t, [Scroll(rect, innerHeight)]) == ScrollStep(t, rect, innerHeight);
  }
}
