/**
 * `ThemeName\Layout\Block\Block`: one block of a page. Its constructor
 * resolves, in this order, the component id, the component name, the block
 * attributes and the component (the module object that renders the block).
 * The filesystem probes, `class_exists`/`method_exists`, the `Fields` trait
 * and the Twig output of each module class are supplied as an `Environment`.
 */
module Blocks {
  import opened Wrappers
  import opened Strings
  import opened PhpValues
  import opened Modules
  import opened Containers

  /** The part of the `WP_Post` the core reads. */
  datatype Post = Post(postType: string)

  /**
   * What the filesystem says about a component name: `{path}.php` exists,
   * `{path}` is a directory, `{path}/{name}.php` exists, where `{path}` is the
   * modules directory joined with the name.
   */
  datatype Probes = Probes(flatFile: string -> bool, directory: string -> bool, nestedFile: string -> bool)

  datatype Environment = Environment(
    probes: Probes,
    classExists: string -> bool,                          // class_exists($component)
    hasRender: string -> bool,                            // method_exists($component, 'render')
    fieldValues: (string, Entries) -> map<string, Value>, // the properties the Fields trait sets for a class
    rendering: string -> Option<string>)                  // what the class's own render() returns, if it overrides it

  predicate IsPageTemplate(layout: string)
  {
    layout == "single" || layout == "archive"
  }

  /** `getComponentId()`. */
  function ComponentId(layout: string, postType: string): string
  {
    if IsPageTemplate(layout) then layout + "-" + postType
    else if '-' in layout then Join(LowerAll(Split(layout, '-')), "-")
    else Lower(layout)
  }

  /** `getComponentName()`, which reads the component id already stored on the block. */
  function ComponentName(layout: string, postType: string, componentId: string): string
  {
    if IsPageTemplate(layout) then layout + "-" + postType
    else if '-' in componentId then Join(CapitalizeAll(Split(componentId, '-')), "")
    else Capitalize(CamelCase(componentId))
  }

  /** `$defaultAttributes`: the keys that identify an attribute array. */
  const DefaultAttributes: seq<string> := ["id", "classnames", "background-color", "background-image", "styles"]

  /** `$fields['block-attributes']` when it is an array, otherwise the empty array. */
  function RawAttributes(fields: Entries): Entries
  {
    match Get(fields, StrKey("block-attributes"))
    case Some(Arr(es)) => es
    case _ => []
  }

  /**
   * The attributes `getBlockAttributes()` hands on, where `guarded` is the
   * value its `is_array(...)` guard tests. The unwrap of element 0 happens
   * only when the guard passes, element 0 exists and holds one of the
   * default keys; an element 0 that is not an array makes
   * `array_key_exists` throw.
   */
  function AttributesAfterGuard(fields: Entries, guarded: Value): Result<Entries, Error>
  {
    var attributes := RawAttributes(fields);
    if guarded.Arr? && Get(attributes, IntKey(0)).Some? then
      match Get(attributes, IntKey(0)).value
      case Arr(first) =>
        if exists j :: 0 <= j < |DefaultAttributes| && Get(first, StrKey(DefaultAttributes[j])).Some?
        then Ok(first) else Ok(attributes)
      case _ => Failure(TypeError("array_key_exists(): Argument #2 ($array) must be of type array"))
    else Ok(attributes)
  }

  /**
   * The attribute selection with its `foreach`/`break` loop. As written the
   * guard tests the undefined variable `$attrbutes`, that is `Null`; the
   * evidently intended guard tests the attributes themselves.
   */
  method GetBlockAttributes(fields: Entries, guarded: Value) returns (r: Result<Entries, Error>)
    ensures r == AttributesAfterGuard(fields, guarded)
  {
    var attributes := RawAttributes(fields);
    if guarded.Arr? && Get(attributes, IntKey(0)).Some? {
      var first := Get(attributes, IntKey(0)).value;
      var j := 0;
      while j < |DefaultAttributes|
        invariant 0 <= j <= |DefaultAttributes|
        invariant j > 0 ==> first.Arr?
        invariant attributes == RawAttributes(fields)
        invariant forall k :: 0 <= k < j ==> Get(first.entries, StrKey(DefaultAttributes[k])).None?
      {
        if !first.Arr? {
          return Failure(TypeError("array_key_exists(): Argument #2 ($array) must be of type array"));
        }
        if Get(first.entries, StrKey(DefaultAttributes[j])).Some? {
          attributes := first.entries;
          break;
        }
        j := j + 1;
      }
    }
    r := Ok(attributes);
  }

  /** The reference `validateComponent($name)` returns, or the exception it throws. */
  function ValidateComponent(layout: string, post: Post, name: string, probes: Probes): (r: Result<string, Error>)
    ensures r.Ok? <==> IsPageTemplate(layout) || probes.flatFile(name) || (probes.directory(name) && probes.nestedFile(name))
    ensures r.Failure? ==> r.error == ModuleNotFound(name)
  {
    if IsPageTemplate(layout) then Ok("ThemeName\\Views\\" + Capitalize(post.postType) + "\\Single")
    else if probes.flatFile(name) then Ok("ThemeName\\Modules\\" + name)
    else if probes.directory(name) && probes.nestedFile(name) then Ok("ThemeName\\Modules\\" + name + "\\" + name)
    else Failure(ModuleNotFound(name))
  }

  /** The block's `WP_Post` as a PHP object, with the `post_type` the core reads. */
  function PostObject(post: Post): (r: Value)
    ensures r.Obj? && r.cls == "WP_Post"
    ensures Get(r.properties, StrKey("post_type")) == Some(Str(post.postType))
  {
    Obj("WP_Post", [(StrKey("post_type"), Str(post.postType))])
  }

  /** The metadata array `getComponent()` passes to the module constructor. */
  function Metadata(componentId: string, layout: string, index: int, post: Post): (r: Entries)
    ensures DistinctKeys(r)
    ensures Get(r, StrKey("id")) == Some(Str(componentId)) && Get(r, StrKey("layout")) == Some(Str(layout))
    ensures Get(r, StrKey("index")) == Some(Int(index)) && Get(r, StrKey("post")) == Some(PostObject(post))
  {
    var keys := ["id", "layout", "index", "post"];
    assert forall i, j :: 0 <= i < j < 4 ==> keys[i] != keys[j] by {
      assert |keys[0]| == 2 && |keys[1]| == 6 && |keys[2]| == 5 && |keys[3]| == 4;
    }
    var r := [(StrKey(keys[0]), Str(componentId)), (StrKey(keys[1]), Str(layout)),
              (StrKey(keys[2]), Int(index)), (StrKey(keys[3]), PostObject(post))];
    assert r[1..][1..][1..] == [r[3]];
    assert Get(r, StrKey("index")) == Get(r[1..], StrKey("index")) == Get(r[1..][1..], StrKey("index"));
    r
  }

  /** PHP's `empty()`. */
  predicate IsEmpty(v: Value)
  {
    v == Null || v == Bool(false) || v == Int(0) || v == Str("") || v == Str("0") || v == Arr([])
  }

  /** `getStyles()` for a given `$this->backgroundImage`. */
  function Styles(backgroundImage: Value): Result<string, Error>
  {
    var url := if backgroundImage.Arr? && Get(backgroundImage.entries, StrKey("url")).Some?
               then Get(backgroundImage.entries, StrKey("url")).value else Null;
    if IsEmpty(url) then Ok("")
    else match Text(url)
      case Some(u) => Ok("style=\"background-image: url('" + u + "')\"")
      case None => Failure(TypeError("Object could not be converted to string"))
  }

  class Block {
    const post: Post
    const fields: Entries
    const index: int
    const layout: string
    var componentId: string
    var componentName: string
    var attributes: Entries
    var component: Module?

    /**
     * The constructor up to the component: id, then name (from the id), then
     * attributes. `NewBlock` completes it with the component.
     */
    constructor Resolve(post: Post, fields: Entries, index: int, layout: string)
      ensures this.post == post && this.fields == fields && this.index == index && this.layout == layout
      ensures componentId == ComponentId(layout, post.postType)
      ensures componentName == ComponentName(layout, post.postType, componentId)
      ensures Ok(attributes) == AttributesAfterGuard(fields, Null)
      ensures component == null
    {
      this.post := post;
      this.fields := fields;
      this.index := index;
      this.layout := layout;
      var id := ComponentId(layout, post.postType);
      componentId := id;
      componentName := ComponentName(layout, post.postType, id);
      var selected := GetBlockAttributes(fields, Null);
      attributes := selected.value;
      component := null;
    }

    /**
     * `getComponent()`: the located class is instantiated only when it exists
     * and has `render`; otherwise there is no component. The exception of
     * `validateComponent` is thrown before the `try` and is not caught.
     */
    method GetComponent(env: Environment) returns (r: Result<Module?, Error>)
      ensures r.Failure? <==> ValidateComponent(layout, post, componentName, env.probes).Failure?
      ensures r.Failure? ==> r.error == ModuleNotFound(componentName)
      ensures r.Ok? ==> var ref := ValidateComponent(layout, post, componentName, env.probes).value;
        && (r.value != null <==> env.classExists(ref) && env.hasRender(ref))
        && (r.value != null ==>
              && fresh(r.value)
              && r.value.fields == fields
              && r.value.meta == Some(Metadata(componentId, layout, index, post))
              && r.value.props == WithModuleValues(env.fieldValues(ref, fields), r.value.meta)
              && r.value.rendering == env.rendering(ref)
              && r.value.Property("id") == Str(componentId))
    {
      var located := ValidateComponent(layout, post, componentName, env.probes);
      if located.Failure? {
        return Failure(located.error);
      }
      var ref := located.value;
      if env.classExists(ref) && env.hasRender(ref) {
        var meta := Metadata(componentId, layout, index, post);
        var m := new Module(fields, Some(meta), env.fieldValues(ref, fields), env.rendering(ref));
        ModuleValueAssigned(env.fieldValues(ref, fields), meta, 0);
        return Ok(m);
      }
      r := Ok(null);
    }

    /** `renderComponent()`: `Container::create($this->component, [])`, a TypeError when there is no component. */
    method RenderComponent(container: Container) returns (r: Result<string, Error>)
      modifies container
      ensures component == null ==> r.Failure? && container.options == old(container.options)
      ensures component != null ==> container.options == ArrayMerge(DefaultOptions, [])
      ensures component != null ==> r == WrapperOutput(ArrayMerge(DefaultOptions, []), component.Property("id"), component.Render())
      ensures component != null && component.Property("id").Str? ==>
        r == Ok(Div("container", Div("block__wrapper " + component.Property("id").s + "__wrapper", component.Render())))
    {
      if component == null {
        return Failure(TypeError("Container::create(): Argument #1 ($module) must be of type Module, null given"));
      }
      r := container.Create(component, []);
      if component.Property("id").Str? {
        DefaultWrap(component.Property("id").s, component.Render());
      }
    }

    /** `getStyles()`: the block never sets `$this->backgroundImage`, so it reads as null. */
    method GetStyles() returns (r: Result<string, Error>)
      ensures r == Ok("")
    {
      r := Styles(Null);
    }
  }

  /**
   * `new Block(...)`: the constructor throws when the component cannot be
   * located; otherwise the block holds the id, the name computed from that
   * id, the attributes and the component, each from the earlier ones.
   */
  method NewBlock(post: Post, fields: Entries, index: int, layout: string, env: Environment)
    returns (r: Result<Block, Error>)
    ensures var id := ComponentId(layout, post.postType);
            var name := ComponentName(layout, post.postType, id);
            var located := ValidateComponent(layout, post, name, env.probes);
            && (r.Failure? <==> located.Failure?)
            && (r.Failure? ==> r.error == ModuleNotFound(name))
            && (r.Ok? ==>
                  && fresh(r.value)
                  && r.value.layout == layout && r.value.post == post
                  && r.value.fields == fields && r.value.index == index
                  && r.value.componentId == id && r.value.componentName == name
                  && Ok(r.value.attributes) == AttributesAfterGuard(fields, Null)
                  && (r.value.component != null <==> env.classExists(located.value) && env.hasRender(located.value))
                  && (r.value.component != null ==>
                        && fresh(r.value.component)
                        && r.value.component.fields == fields
                        && r.value.component.meta == Some(Metadata(id, layout, index, post))
                        && r.value.component.props == WithModuleValues(env.fieldValues(located.value, fields), r.value.component.meta)
                        && r.value.component.rendering == env.rendering(located.value)
                        && r.value.component.Property("id") == Str(id)))
  {
    var b := new Block.Resolve(post, fields, index, layout);
    var c := b.GetComponent(env);
    if c.Failure? {
      return Failure(c.error);
    }
    b.component := c.value;
    r := Ok(b);
  }

  // ---------------------------------------------------------------------
  // Lemmas: identity

  /** `single` and `archive` pages keep `{layout}-{post_type}` as both id and name, untransformed. */
  lemma PageTemplateIdentity(layout: string, postType: string)
    requires IsPageTemplate(layout)
    ensures ComponentId(layout, postType) == layout + "-" + postType
    ensures ComponentName(layout, postType, ComponentId(layout, postType)) == layout + "-" + postType
  {
  }

  /**
   * Outside page templates the id is the layout lower-cased: the hyphen
   * tokens each lower-cased, as many as the layout has, rejoined with `-`.
   */
  lemma IdIsLowercasedLayout(layout: string, postType: string)
    requires !IsPageTemplate(layout)
    ensures ComponentId(layout, postType) == Lower(layout)
    ensures Split(ComponentId(layout, postType), '-') == LowerAll(Split(layout, '-'))
    ensures forall i :: 0 <= i < |ComponentId(layout, postType)| ==> !IsUpper(ComponentId(layout, postType)[i])
  {
    SplitLower(layout);
    if '-' in layout {
      SplitJoin(Lower(layout), '-');
    }
  }

  /**
   * Outside page templates the name is the id's hyphen tokens, each with its
   * first letter upper-cased, concatenated: it never contains `-`.
   */
  lemma NameIsCapitalizedTokens(layout: string, postType: string)
    requires !IsPageTemplate(layout)
    ensures var id := ComponentId(layout, postType);
            var name := ComponentName(layout, postType, id);
            name == Join(CapitalizeAll(Split(id, '-')), "") && '-' !in name
  {
    var id := ComponentId(layout, postType);
    IdIsLowercasedLayout(layout, postType);
    if '-' in id {
      var ts := Split(id, '-');
      SplitTokensLackSeparator(id, '-');
      forall i | 0 <= i < |CapitalizeAll(ts)| ensures '-' !in CapitalizeAll(ts)[i] {
        CapitalizeKeepsHyphens(ts[i]);
      }
      JoinLacks(CapitalizeAll(ts), '-');
    } else {
      SplitWithoutSeparator(id, '-');
      CapitalizeKeepsHyphens(id);
      assert CapitalizeAll([id]) == [Capitalize(id)];
    }
  }

  /**
   * `Banner-Hero` resolves to the id `banner-hero` and the class name
   * `BannerHero`. The key is a parameter so that Dafny does not unfold
   * `Split` and `Join` on the literal.
   */
  lemma BannerHeroExample(layout: string, postType: string)
    requires layout == "Banner-Hero"
    ensures ComponentId(layout, postType) == "banner-hero"
    ensures ComponentName(layout, postType, ComponentId(layout, postType)) == "BannerHero"
  {
    assert !IsPageTemplate(layout) by { assert |layout| == 11; }
    IdIsLowercasedLayout(layout, postType);
    LowerLiteral();
    NameIsCapitalizedTokens(layout, postType);
    var id := ComponentId(layout, postType);
    SplitBannerHero(id);
    JoinBannerHero(Split(id, '-'));
  }

  lemma SplitBannerHero(id: string)
    requires id == "banner-hero"
    ensures Split(id, '-') == ["banner", "hero"]
  {
    var a, b := "banner", "hero";
    assert id == a + ['-'] + b;
    assert '-' !in a && '-' !in b;
    SplitAtFirst(a, '-', b);
    SplitWithoutSeparator(b, '-');
  }

  lemma JoinBannerHero(ts: seq<string>)
    requires ts == ["banner", "hero"]
    ensures Join(CapitalizeAll(ts), "") == "BannerHero"
  {
  }

  lemma LowerLiteral()
    ensures Lower("Banner-Hero") == "banner-hero"
  {
  }

  /**
   * `content` resolves to the id `content` and the class name `Content`;
   * `single` on a `team` post to `single-team`. The keys are parameters so
   * that Dafny does not unfold the string functions on the literals.
   */
  lemma SingleWordAndTemplateExamples(word: string, template: string)
    requires word == "content" && template == "single"
    ensures ComponentId(word, "page") == "content"
    ensures ComponentName(word, "page", "content") == "Content"
    ensures ComponentId(template, "team") == "single-team"
    ensures ComponentName(template, "team", "single-team") == "single-team"
  {
    assert !IsPageTemplate(word) && '-' !in word by { assert |word| == 7 && word[0] == 'c'; }
    LowerLowerCase(word);
  }

  /** A word without upper-case letters is its own lower case. */
  lemma LowerLowerCase(s: string)
    requires forall i :: 0 <= i < |s| ==> !IsUpper(s[i])
    ensures Lower(s) == s
  {
  }

  /**
   * A layout key made of words such as `Banner-Hero`: letters and `-` only,
   * with an upper-case letter only at the start of a `-`-token. On each token
   * of such a key lodash's `lowerCase` finds a single word, so it agrees with
   * `Lower`.
   */
  predicate PlainLayout(layout: string)
  {
    forall i :: 0 <= i < |layout| ==>
      IsLower(layout[i]) || layout[i] == '-' || (IsUpper(layout[i]) && (i == 0 || layout[i - 1] == '-'))
  }

  /** Plain layout keys that differ only in letter case resolve to the same id and name. */
  lemma ResolutionIgnoresCase(layout1: string, layout2: string, postType: string)
    requires !IsPageTemplate(layout1) && !IsPageTemplate(layout2)
    requires PlainLayout(layout1) && PlainLayout(layout2)
    requires Lower(layout1) == Lower(layout2)
    ensures ComponentId(layout1, postType) == ComponentId(layout2, postType)
    ensures ComponentName(layout1, postType, ComponentId(layout1, postType))
         == ComponentName(layout2, postType, ComponentId(layout2, postType))
  {
    IdIsLowercasedLayout(layout1, postType);
    IdIsLowercasedLayout(layout2, postType);
  }

  // ---------------------------------------------------------------------
  // Lemmas: attributes

  /** As written, any array under `block-attributes` is handed on unchanged, anything else as the empty array. */
  lemma AsWrittenPassesAttributesOn(fields: Entries)
    ensures AttributesAfterGuard(fields, Null)
         == Ok(match Get(fields, StrKey("block-attributes")) case Some(Arr(es)) => es case _ => [])
  {
  }

  /** The fields of a block whose attribute array arrives wrapped in an element 0. */
  function WrappedFields(inner: Entries): Entries
  {
    [(StrKey("block-attributes"), Arr([(IntKey(0), Arr(inner))]))]
  }

  predicate HasDefaultKey(attributes: Entries)
  {
    exists j :: 0 <= j < |DefaultAttributes| && Get(attributes, StrKey(DefaultAttributes[j])).Some?
  }

  /** As written, a wrapped attribute array is never unwrapped: the block keeps the outer array. */
  lemma AsWrittenKeepsWrapper(inner: Entries)
    requires HasDefaultKey(inner)
    ensures AttributesAfterGuard(WrappedFields(inner), Null) == Ok([(IntKey(0), Arr(inner))])
    ensures AttributesAfterGuard(WrappedFields(inner), Null) != Ok(inner)
  {
  }

  /** With the guard as intended, a wrapped attribute array resolves exactly like the same array given directly. */
  lemma IntendedUnwrap(inner: Entries)
    requires HasDefaultKey(inner) && Get(inner, IntKey(0)).None?
    ensures AttributesAfterGuard(WrappedFields(inner), Arr(RawAttributes(WrappedFields(inner)))) == Ok(inner)
    ensures var direct := [(StrKey("block-attributes"), Arr(inner))];
            AttributesAfterGuard(direct, Arr(RawAttributes(direct))) == Ok(inner)
  {
  }

  // ---------------------------------------------------------------------
  // Lemmas: component location

  /** Page templates get the post type's `Single` view before any file check, for `single` and `archive` alike. */
  lemma PageTemplateSkipsProbes(layout: string, post: Post, name: string, p: Probes, q: Probes)
    requires IsPageTemplate(layout)
    ensures ValidateComponent(layout, post, name, p) == ValidateComponent(layout, post, name, q)
         == Ok("ThemeName\\Views\\" + Capitalize(post.postType) + "\\Single")
  {
  }

  /** A flat module file takes precedence over a same-named directory. */
  lemma FlatFileFirst(layout: string, post: Post, name: string, p: Probes)
    requires !IsPageTemplate(layout) && p.flatFile(name)
    ensures ValidateComponent(layout, post, name, p) == Ok("ThemeName\\Modules\\" + name)
  {
  }

  /** Without a flat file, a directory holding the same-named file is the entry point. */
  lemma DirectoryEntryPoint(layout: string, post: Post, name: string, p: Probes)
    requires !IsPageTemplate(layout) && !p.flatFile(name) && p.directory(name) && p.nestedFile(name)
    ensures ValidateComponent(layout, post, name, p) == Ok("ThemeName\\Modules\\" + name + "\\" + name)
  {
  }

  /** A background image with a non-empty string URL gives the inline style; no image gives none. */
  lemma StylesFromBackground(url: string)
    requires url != "" && url != "0"
    ensures Styles(Arr([(StrKey("url"), Str(url))])) == Ok("style=\"background-image: url('" + url + "')\"")
    ensures Styles(Null) == Ok("")
  {
  }
}
