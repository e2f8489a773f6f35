/**
 * `ThemeName\Layout\Container`: wraps a module's rendered HTML in a wrapper
 * div and a container div. The class keeps its options in a static array
 * that `create` overwrites and `withWrapper`/`withContainer` read; here that
 * static state is the `options` field of a `Container` object, and the
 * classname builders and the two wrapping steps are also given as pure
 * functions of the options.
 */
module Containers {
  import opened Wrappers
  import opened Strings
  import opened PhpValues
  import opened Modules

  /** `self::$classnames['container']`. */
  const ContainerDefaults: Entries := [(IntKey(0), Str("container"))]

  /** `self::$classnames['wrapper']`. */
  const WrapperDefaults: Entries := [(IntKey(0), Str("block__wrapper"))]

  /** `self::$defaultOptions`. */
  const DefaultOptions: Entries := [(StrKey("container"), Arr([])), (StrKey("wrapper"), Arr([]))]

  /** The div each wrapping step builds (indentation and surrounding whitespace left out). */
  function Div(classnames: string, html: string): string
  {
    "<div class='" + classnames + "'>" + html + "</div>"
  }

  /** `self::$options['wrapper'] === false`. */
  predicate WrapperDisabled(options: Entries)
  {
    Get(options, StrKey("wrapper")) == Some(Bool(false))
  }

  /** `self::$options[$key]['classnames'] ?? []`. */
  function OptionalClassnames(options: Entries, key: string): Value
  {
    match Get(options, StrKey(key))
    case Some(Arr(o)) =>
      (match Get(o, StrKey("classnames"))
       case Some(v) => if v == Null then Arr([]) else v
       case None => Arr([]))
    case _ => Arr([])
  }

  /** `getContainerClassnames()`: the default container class, then the caller's, space-joined. */
  function ContainerClassnames(options: Entries): Result<string, Error>
  {
    match OptionalClassnames(options, "container")
    case Arr(optional) => Implode(" ", ArrayMerge(ContainerDefaults, optional))
    case _ => Failure(TypeError("array_merge(): Argument #2 must be of type array"))
  }

  /** `getWrapperClassnames($module)`, where `id` is `$module->id`. */
  function WrapperClassnames(options: Entries, id: Value): Result<string, Error>
  {
    match Text(id)
    case None => Failure(TypeError("Object could not be converted to string"))
    case Some(idText) =>
      match OptionalClassnames(options, "wrapper")
      case Arr(optional) =>
        Implode(" ", Append(ArrayMerge(WrapperDefaults, optional), Str(idText + "__wrapper")))
      case _ => Failure(TypeError("array_merge(): Argument #2 must be of type array"))
  }

  /** What `withContainer($html)` returns under `options`. */
  function ContainerOutput(options: Entries, html: string): Result<string, Error>
  {
    if WrapperDisabled(options) then Ok(html)
    else match ContainerClassnames(options)
      case Ok(cls) => Ok(Div(cls, html))
      case Failure(e) => Failure(e)
  }

  /** What `withWrapper($module)` returns under `options`, for a module with id `id` that renders `html`. */
  function WrapperOutput(options: Entries, id: Value, html: string): Result<string, Error>
  {
    if WrapperDisabled(options) then ContainerOutput(options, html)
    else match WrapperClassnames(options, id)
      case Ok(cls) => ContainerOutput(options, Div(cls, html))
      case Failure(e) => Failure(e)
  }

  class Container {
    /** `self::$options`. */
    var options: Entries

    constructor ()
      ensures options == []
    {
      options := [];
    }

    /**
     * `Container::create($module, $options)`: replaces the stored options by
     * the defaults merged with the caller's, then wraps the module. The
     * output depends on this call's options and module only.
     */
    method Create(m: Module, opts: Entries) returns (r: Result<string, Error>)
      modifies this
      ensures options == ArrayMerge(DefaultOptions, opts)
      ensures r == WrapperOutput(ArrayMerge(DefaultOptions, opts), m.Property("id"), m.Render())
    {
      options := ArrayMerge(DefaultOptions, opts);
      r := WithWrapper(m);
    }

    method WithContainer(html: string) returns (r: Result<string, Error>)
      ensures r == ContainerOutput(options, html)
    {
      if Get(options, StrKey("wrapper")) == Some(Bool(false)) {
        return Ok(html);
      }
      var cls := ContainerClassnames(options);
      if cls.Failure? {
        return Failure(cls.error);
      }
      r := Ok(Div(cls.value, html));
    }

    method WithWrapper(m: Module) returns (r: Result<string, Error>)
      ensures r == WrapperOutput(options, m.Property("id"), m.Render())
    {
      if Get(options, StrKey("wrapper")) == Some(Bool(false)) {
        r := WithContainer(m.Render());
        return;
      }
      var cls := WrapperClassnames(options, m.Property("id"));
      if cls.Failure? {
        return Failure(cls.error);
      }
      r := WithContainer(Div(cls.value, m.Render()));
    }
  }

  // ---------------------------------------------------------------------
  // Lemmas

  /**
   * The effective options are the defaults overridden key by key by the
   * caller's options.
   */
  lemma EffectiveOption(opts: Entries, key: string)
    requires DistinctKeys(opts)
    ensures Get(ArrayMerge(DefaultOptions, opts), StrKey(key))
         == if Get(opts, StrKey(key)).Some? then Get(opts, StrKey(key)) else Get(DefaultOptions, StrKey(key))
  {
    var e0, e1 := DefaultOptions[0], DefaultOptions[1];
    assert MergeStep([], e0) == [e0];
    assert [e0][1..] == [];
    assert e0.0 != e1.0 by { assert |"container"| != |"wrapper"|; }
    assert Set([e0], e1.0, e1.1) == [e0] + Set([], e1.0, e1.1);
    assert MergeStep([e0], e1) == [e0, e1];
    assert DefaultOptions[1..] == [e1] && DefaultOptions[1..][1..] == [];
    assert MergeInto([], DefaultOptions) == DefaultOptions;
    GetAfterMerge(DefaultOptions, opts, key);
  }

  /** `wrapper === false` gives the module's output bare: no wrapper div and no container div either. */
  lemma WrapperFalseIsBare(opts: Entries, id: Value, html: string)
    requires DistinctKeys(opts) && Get(opts, StrKey("wrapper")) == Some(Bool(false))
    ensures WrapperOutput(ArrayMerge(DefaultOptions, opts), id, html) == Ok(html)
  {
    EffectiveOption(opts, "wrapper");
  }

  /**
   * The merged class list of one wrapping step: the defaults first, then the
   * caller's classnames in their order.
   */
  lemma MergedClassValues(defaults: Entries, optional: Entries)
    requires |defaults| == 1 && defaults[0].0 == IntKey(0)
    requires DistinctKeys(optional)
    ensures Values(ArrayMerge(defaults, optional)) == [defaults[0].1] + Values(optional)
  {
    var start := MergeInto([], defaults);
    assert IntKeyCount([]) == 0;
    assert MergeStep([], defaults[0]) == [(IntKey(0), defaults[0].1)];
    assert defaults[1..] == [];
    assert MergeInto([], defaults) == MergeInto(MergeStep([], defaults[0]), []);
    ValuesAfterMerge(start, optional);
  }

  /** Container classes: `container` first, then the caller's `container.classnames`, space-joined. */
  lemma ContainerClassOrder(options: Entries, optional: Entries, classes: seq<string>)
    requires OptionalClassnames(options, "container") == Arr(optional)
    requires DistinctKeys(optional) && Texts(Values(optional)) == Some(classes)
    ensures ContainerClassnames(options) == Ok(Join(["container"] + classes, " "))
  {
    MergedClassValues(ContainerDefaults, optional);
    TextsSingle(Str("container"));
    TextsConcat([Str("container")], Values(optional));
  }

  /** Wrapper classes: `block__wrapper`, then the caller's `wrapper.classnames`, then `{id}__wrapper` last. */
  lemma WrapperClassOrder(options: Entries, id: Value, idText: string, optional: Entries, classes: seq<string>)
    requires Text(id) == Some(idText)
    requires OptionalClassnames(options, "wrapper") == Arr(optional)
    requires DistinctKeys(optional) && Texts(Values(optional)) == Some(classes)
    ensures WrapperClassnames(options, id) == Ok(Join(["block__wrapper"] + classes + [idText + "__wrapper"], " "))
  {
    var merged := ArrayMerge(WrapperDefaults, optional);
    MergedClassValues(WrapperDefaults, optional);
    var pushed := Append(merged, Str(idText + "__wrapper"));
    ValuesAppend(merged, (IntKey(IntKeyCount(merged)), Str(idText + "__wrapper")));
    assert Values(pushed) == [Str("block__wrapper")] + Values(optional) + [Str(idText + "__wrapper")];
    TextsSingle(Str("block__wrapper"));
    TextsSingle(Str(idText + "__wrapper"));
    TextsConcat([Str("block__wrapper")], Values(optional));
    TextsConcat([Str("block__wrapper")] + Values(optional), [Str(idText + "__wrapper")]);
    assert Texts(Values(pushed)) == Some(["block__wrapper"] + classes + [idText + "__wrapper"]);
  }

  /** A missing `classnames` entry contributes no class. */
  lemma MissingClassnamesContributeNothing(options: Entries, key: string)
    requires match Get(options, StrKey(key))
             case Some(Arr(o)) => Get(o, StrKey("classnames")).None?
             case _ => true
    ensures OptionalClassnames(options, key) == Arr([])
    ensures key == "container" ==> ContainerClassnames(options) == Ok("container")
  {
    if key == "container" {
      ContainerClassOrder(options, [], []);
    }
  }

  /** With wrapping on, the module output sits inside the wrapper div, which sits inside the container div. */
  lemma WrapperNestsInContainer(options: Entries, id: Value, html: string)
    requires !WrapperDisabled(options)
    requires WrapperClassnames(options, id).Ok? && ContainerClassnames(options).Ok?
    ensures WrapperOutput(options, id, html)
         == Ok(Div(ContainerClassnames(options).value, Div(WrapperClassnames(options, id).value, html)))
  {
  }

  /** Options that add no classnames and leave wrapping on give both divs with their default classes. */
  lemma DefaultClassesOnly(options: Entries, id: string, html: string)
    requires !WrapperDisabled(options)
    requires OptionalClassnames(options, "container") == Arr([]) && OptionalClassnames(options, "wrapper") == Arr([])
    ensures WrapperOutput(options, Str(id), html) == Ok(Div("container", Div("block__wrapper " + id + "__wrapper", html)))
  {
    assert Values([]) == [] && Texts([]) == Some([]);
    ContainerClassOrder(options, [], []);
    WrapperClassOrder(options, Str(id), id, [], []);
    assert ["container"] + [] == ["container"];
    var ws := ["block__wrapper"] + [] + [id + "__wrapper"];
    assert ws[1..] == [id + "__wrapper"];
    assert Join(ws, " ") == "block__wrapper " + id + "__wrapper";
  }

  /**
   * `container => false` does not suppress the container div: only the
   * `wrapper` flag is ever tested.
   */
  lemma ContainerFalseKeepsContainer(id: string, html: string)
    ensures WrapperOutput(ArrayMerge(DefaultOptions, [(StrKey("container"), Bool(false))]), Str(id), html)
         == Ok(Div("container", Div("block__wrapper " + id + "__wrapper", html)))
  {
    var options := ArrayMerge(DefaultOptions, [(StrKey("container"), Bool(false))]);
    EffectiveOption([(StrKey("container"), Bool(false))], "container");
    EffectiveOption([(StrKey("container"), Bool(false))], "wrapper");
    assert Get(DefaultOptions, StrKey("wrapper")) == Some(Arr([]));
    DefaultClassesOnly(options, id, html);
  }

  /** `create($module, [])`: both divs, each with its default classes only. */
  lemma DefaultWrap(id: string, html: string)
    ensures WrapperOutput(ArrayMerge(DefaultOptions, []), Str(id), html)
         == Ok(Div("container", Div("block__wrapper " + id + "__wrapper", html)))
  {
    var options := ArrayMerge(DefaultOptions, []);
    EffectiveOption([], "container");
    EffectiveOption([], "wrapper");
    assert Get(DefaultOptions, StrKey("wrapper")) == Some(Arr([]));
    assert Get(DefaultOptions, StrKey("container")) == Some(Arr([]));
    DefaultClassesOnly(options, id, html);
  }
}
