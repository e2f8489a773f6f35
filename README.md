# Block-to-component resolution of the theme, in Dafny

This project models the core of a WordPress theme's rendering layer: how one
block of a page (a layout key such as `Banner-Hero` plus the editor's field
payload) becomes a component. The chain has four steps:

- **Identity.** `Block` derives a lower-case hyphenated component id
  (`banner-hero`) and a PascalCase class name (`BannerHero`). `single` and
  `archive` pages are special-cased to `{layout}-{post_type}`.
- **Attributes.** `Block` picks the raw `block-attributes` payload.
- **Location.** `Block` locates the component class: the post type's `Single`
  view, a flat module file, or a directory with the same-named file.
  Otherwise it throws.
- **Instantiation and wrapping.** `Block` instantiates the module, passing it
  metadata (`id`, `layout`, `index`, `post`). `Module` copies that metadata
  onto itself as properties. `Container` wraps the module's output in a
  wrapper div and a container div.

Modules of the project:

- `wrappers.dfy` (`Wrappers`): `Option` and `Result`. `Failure` stands for a
  thrown exception.
- `strings.dfy` (`Strings`): the string helpers the chain uses. These are
  split/implode, lodash's `lowerCase`, `capitalize` and `camelCase`, and PHP's
  `ucfirst`, together with lemmas about them (split and join round trip,
  lower-casing commutes with splitting on `-`).
- `php_values.dfy` (`PhpValues`): PHP values. Arrays are kept ordered, as a
  sequence of key/value entries. The module also gives `$a[$k]`, `$a[$k] = $v`,
  `$a[] = $v`, `array_merge`, `implode` and string conversion, with lemmas on
  what `array_merge` keeps.
- `block.dfy` (`Blocks`): `Block.php`.
  - `getComponentId` and `getComponentName` are pure functions.
  - `getBlockAttributes` is a method. Its `foreach`/`break` loop is proved
    against `AttributesAfterGuard`.
  - `validateComponent` is a function returning a `Result`.
  - The `Block` class is built by `NewBlock`, because the PHP constructor can
    throw. The constructor `Resolve` first sets id, name and attributes, in that
    order. `NewBlock` then adds the component.
- `container.dfy` (`Containers`): `Container.php`.
  - The static `$options` becomes the `options` field of a `Container` object.
    `Create` overwrites it, and `WithWrapper`/`WithContainer` read it.
  - The classname builders and both wrapping steps are also pure functions of
    the options (`ContainerClassnames`, `WrapperClassnames`, `ContainerOutput`,
    `WrapperOutput`).
- `module.dfy` (`Modules`): `Module.php`. A module object is a property table.
  The constructor's `getModuleValues` loop assigns every metadata key in
  order.

Outside effects are parameters of the model:

- `Probes` stands for the filesystem checks.
- `Environment` stands for `class_exists`, `method_exists`, the `Fields`
  trait's field values and the Twig output of each module class.

Points where the model follows what the code does:

- The doc comment at `Block.php:135-142` says that an element 0 holding the
  attributes is unwrapped. The guard at `Block.php:143` tests the undefined
  `$attrbutes`, so the unwrap never runs (see Findings).
- The exception thrown at `Block.php:216-218` when no component is found
  escapes the `Block` constructor. `Page::getBlocks`
  (`Sisyphus/Layout/Page.php:51-64`) constructs blocks without a `try`. A class
  without `render` leaves the component `null`, and `renderComponent` then
  fails with a TypeError in `Container::create`. See `NewBlock` and
  `Block.RenderComponent`.
- `withContainer` tests the `wrapper` flag (`Container.php:53`), not a
  `container` flag. So `wrapper => false` gives bare output with no container
  div, and a `container` flag is never tested.
- The options are static state (`Container.php:32`, written at
  `Container.php:41`). The model keeps them as a field of a `Container` object
  that `Create` overwrites.

## Model

| member | source | states |
|---|---|---|
| `Blocks.IsPageTemplate` | functions/ThemeName/Layout/Block/Block.php:164-169 | no contract: holds exactly for the layouts `single` and `archive`; used by `PageTemplateIdentity` and `PageTemplateSkipsProbes` |
| `Blocks.ComponentId` | functions/ThemeName/Layout/Block/Block.php:81-94 | no contract: computes the id from the layout and post type; its properties are proved in `PageTemplateIdentity`, `IdIsLowercasedLayout` and `ResolutionIgnoresCase` |
| `Blocks.ComponentName` | functions/ThemeName/Layout/Block/Block.php:103-119 | no contract: computes the class name from the stored id; its properties are proved in `PageTemplateIdentity`, `NameIsCapitalizedTokens` and `BannerHeroExample` |
| `Blocks.PageTemplateIdentity` | functions/ThemeName/Layout/Block/Block.php:81-106 | for `single`/`archive`, id and name are both exactly `layout + "-" + post_type`, untransformed |
| `Blocks.IdIsLowercasedLayout` | functions/ThemeName/Layout/Block/Block.php:81-94 | outside page templates the id is the layout lower-cased: its `-`-tokens are the layout's tokens each lower-cased, same count, and it has no upper-case letter |
| `Blocks.NameIsCapitalizedTokens` | functions/ThemeName/Layout/Block/Block.php:103-119 | outside page templates the name is computed from the id: its tokens, each with the first letter upper-cased, concatenated; the name contains no `-` |
| `Blocks.ResolutionIgnoresCase` | functions/ThemeName/Layout/Block/Block.php:81-119 | two plain layout keys (letters and `-`, upper case only at the start of a token, such as `Banner-Hero`) that differ only in case get the same id and the same name |
| `Blocks.BannerHeroExample` | functions/ThemeName/Layout/Block/Block.php:71-78 | `Banner-Hero` gives id `banner-hero` and name `BannerHero` |
| `Blocks.SingleWordAndTemplateExamples` | functions/ThemeName/Layout/Block/Block.php:103-119 | `content` gives `content`/`Content`; `single` on a `team` post gives `single-team` for both |
| `Blocks.RawAttributes` | functions/ThemeName/Layout/Block/Block.php:131-133 | no contract: `block-attributes` when it is an array, otherwise the empty array; proved in `AsWrittenPassesAttributesOn` |
| `Blocks.AttributesAfterGuard` | functions/ThemeName/Layout/Block/Block.php:131-150 | no contract: the attributes handed on for a given guard value; the loop of `GetBlockAttributes` is proved equal to it, and `AsWrittenKeepsWrapper` and `IntendedUnwrap` are proved about it |
| `Blocks.GetBlockAttributes` | functions/ThemeName/Layout/Block/Block.php:130-157 | the foreach/break loop returns exactly `AttributesAfterGuard`: element 0 replaces the attributes only if the guard passes, element 0 exists and holds a default key, and a non-array element 0 throws |
| `Blocks.AsWrittenPassesAttributesOn` | functions/ThemeName/Layout/Block/Block.php:131-150 | as written, an array under `block-attributes` is handed on unchanged and anything else becomes the empty array |
| `Blocks.AsWrittenKeepsWrapper` | functions/ThemeName/Layout/Block/Block.php:143 | as written, an attribute array wrapped in element 0 stays wrapped and is not the inner array |
| `Blocks.IntendedUnwrap` | functions/ThemeName/Layout/Block/Block.php:135-149 | with the guard testing `$attributes`, a wrapped attribute array resolves exactly as the same array given directly |
| `Blocks.ValidateComponent` | functions/ThemeName/Layout/Block/Block.php:195-221 | succeeds exactly for a page template, a flat file, or a directory holding the same-named file; otherwise it throws the not-found exception for that name |
| `Blocks.PageTemplateSkipsProbes` | functions/ThemeName/Layout/Block/Block.php:199-202 | a page template gives `ThemeName\Views\{Ucfirst(post_type)}\Single` whatever the filesystem says, for `single` and `archive` alike |
| `Blocks.FlatFileFirst` | functions/ThemeName/Layout/Block/Block.php:205-207 | a flat file gives `ThemeName\Modules\{name}`, even when a directory exists too |
| `Blocks.DirectoryEntryPoint` | functions/ThemeName/Layout/Block/Block.php:210-214 | without a flat file, a directory with the same-named file gives `ThemeName\Modules\{name}\{name}` |
| `Blocks.PostObject` | functions/ThemeName/Layout/Block/Block.php:242 | the block's post as a `WP_Post` object whose `post_type` property reads as the post's type |
| `Blocks.Metadata` | functions/ThemeName/Layout/Block/Block.php:238-243 | the metadata array has distinct keys; `id`, `layout` and `index` look up the component id, the layout and the index, and `post` looks up the block's own post object |
| `Blocks.Block.Resolve` | functions/ThemeName/Layout/Block/Block.php:58-67 | the constructor sets the id, then the name from that stored id, then the attributes as written, with no component yet |
| `Blocks.Block.GetComponent` | functions/ThemeName/Layout/Block/Block.php:228-249 | throws exactly when validation fails; yields a fresh module only when the class exists and has `render`, built with the fields, the metadata `id`/`layout`/`index`/`post` and so `$module->id` equal to the component id; otherwise no component |
| `Blocks.NewBlock` | functions/ThemeName/Layout/Block/Block.php:58-69 | construction fails exactly when the component cannot be located; otherwise the block keeps its post, fields, index and layout, and id, name, attributes and component follow in order, each a function of the earlier ones; the component holds the fields, the block's metadata, the properties that metadata gives and the class's own output |
| `Blocks.Block.RenderComponent` | functions/ThemeName/Layout/Block/Block.php:256-258 | without a component, a TypeError and the stored options untouched; with one, `Container::create` with no options: the module output inside `block__wrapper {id}__wrapper` inside `container` |
| `Blocks.Styles` | functions/ThemeName/Layout/Block/Block.php:176-182 | no contract: the inline style for a given `backgroundImage`; proved in `StylesFromBackground` and used by `Block.GetStyles` |
| `Blocks.Block.GetStyles` | functions/ThemeName/Layout/Block/Block.php:176-182 | the block never sets `backgroundImage`, so the style is always empty |
| `Blocks.StylesFromBackground` | functions/ThemeName/Layout/Block/Block.php:176-182 | a non-empty image URL gives the `background-image` inline style; a null image gives none |
| `Containers.Container.constructor` | functions/ThemeName/Layout/Container.php:32 | the stored options start as the empty array |
| `Containers.ContainerClassnames` | functions/ThemeName/Layout/Container.php:91-97 | no contract: the container class string for given options; proved in `ContainerClassOrder` and `MissingClassnamesContributeNothing` |
| `Containers.WrapperClassnames` | functions/ThemeName/Layout/Container.php:106-114 | no contract: the wrapper class string for given options and module id; proved in `WrapperClassOrder` |
| `Containers.ContainerOutput` | functions/ThemeName/Layout/Container.php:52-63 | no contract: `withContainer` as a function of the options; `Container.WithContainer` is proved equal to it |
| `Containers.WrapperOutput` | functions/ThemeName/Layout/Container.php:71-82 | no contract: `withWrapper` as a function of the options; `Container.WithWrapper` is proved equal to it, and `WrapperFalseIsBare`, `ContainerFalseKeepsContainer`, `WrapperNestsInContainer` and `DefaultWrap` are proved about it |
| `Containers.EffectiveOption` | functions/ThemeName/Layout/Container.php:24-41 | after `create`, each option is the caller's value when given, otherwise the default `[]` |
| `Containers.Container.Create` | functions/ThemeName/Layout/Container.php:40-44 | replaces the stored options by the defaults merged with this call's options; the output depends on this call's options and module only |
| `Containers.Container.WithContainer` | functions/ThemeName/Layout/Container.php:52-63 | returns the HTML bare when `wrapper` is `false`, otherwise inside a div with the container classes |
| `Containers.Container.WithWrapper` | functions/ThemeName/Layout/Container.php:71-82 | returns the module's render output, wrapped in the wrapper div unless `wrapper` is `false`, then passed through `WithContainer` |
| `Containers.WrapperFalseIsBare` | functions/ThemeName/Layout/Container.php:53-73 | `wrapper => false` gives exactly the module's output: no wrapper div and no container div, whatever `container` says |
| `Containers.ContainerFalseKeepsContainer` | functions/ThemeName/Layout/Container.php:53-73 | `container => false` still gives the container div around the wrapper div |
| `Containers.ContainerClassOrder` | functions/ThemeName/Layout/Container.php:91-97 | container classes are `container`, then the caller's `container.classnames` in order, space-joined |
| `Containers.WrapperClassOrder` | functions/ThemeName/Layout/Container.php:106-114 | wrapper classes are `block__wrapper`, then the caller's `wrapper.classnames` in order, then `{id}__wrapper` last, space-joined |
| `Containers.MissingClassnamesContributeNothing` | functions/ThemeName/Layout/Container.php:93 | a missing `classnames` entry contributes no class: the container classes are just `container` |
| `Containers.WrapperNestsInContainer` | functions/ThemeName/Layout/Container.php:57-81 | with wrapping on, the output is the container div around the wrapper div around the module output |
| `Containers.DefaultClassesOnly` | functions/ThemeName/Layout/Container.php:52-114 | options that leave wrapping on and add no classnames give the module output inside `block__wrapper {id}__wrapper` inside `container` |
| `Containers.DefaultWrap` | functions/ThemeName/Layout/Container.php:40-44 | with no options, both divs are present with only their default classes |
| `Modules.Assign` | functions/ThemeName/Modules/Module.php:62-64 | no contract: the properties after assigning each entry in order; proved in `ModuleValueAssigned`, `ModuleValueUntouched` and `ModuleValueKeys` |
| `Modules.WithModuleValues` | functions/ThemeName/Modules/Module.php:60-66 | no contract: `getModuleValues` as a function: nothing for null metadata, otherwise `Assign`; `Module.GetModuleValues` is proved equal to it |
| `Modules.Module.constructor` | functions/ThemeName/Modules/Module.php:48-55 | field values first, then module values: the properties are the field values overridden by the metadata |
| `Modules.Module.GetModuleValues` | functions/ThemeName/Modules/Module.php:60-66 | the loop assigns every metadata entry in order (nothing when the metadata is null) and touches nothing else |
| `Modules.ModuleValueAssigned` | functions/ThemeName/Modules/Module.php:62-64 | after the loop, every metadata key `k` is a property holding `module[k]` |
| `Modules.ModuleValueUntouched` | functions/ThemeName/Modules/Module.php:62-64 | a property no metadata key names keeps its presence and value |
| `Modules.ModuleValueKeys` | functions/ThemeName/Modules/Module.php:60-66 | afterwards the properties are exactly the earlier ones plus the metadata keys |
| `Modules.MetadataOverridesFields` | functions/ThemeName/Modules/Module.php:53-54 | a metadata key overrides a field-derived property of the same name; null metadata changes nothing |
| `Modules.Module.Property` | functions/ThemeName/Layout/Container.php:109 | no contract: reading `$module->{name}`, with null for an undefined property; `ModuleValueAssigned` gives the `id` that `Block.GetComponent` proves |
| `Modules.Module.Render` | functions/ThemeName/Modules/Module.php:88-95 | the parent `render()` returns the empty string; an overriding class returns its own output |

## Left out

- Twig rendering is not modelled. This covers `Block::render`, the templates and
  every concrete module's `render`. A module's own output is an opaque string
  (`Module.rendering`).
- The page layer, the theme bootstrap and the concrete modules (`Team`,
  `Contact`, `About`) are not part of this model. They are WordPress/ACF calls,
  dependency-injection wiring and template rendering.
- Filesystem checks and `Constants::getPath` are the `Probes` predicates on the
  component name. The not-found exception carries the name, not the full path.
- `class_exists`, `method_exists` and the `Fields` trait's `getFieldValues` are
  `Environment` parameters. Exceptions that the `try` in `getComponent` would
  catch are not modelled: an autoloader failure, or a module constructor that
  throws. Neither is the `echo` of their message.
- `BlockAttributes` is not part of this model. The block keeps the raw
  attribute array it hands on.
- lodash's `lowerCase` is ASCII lower-casing. lodash's word splitting is not
  modelled: it inserts spaces at camel-case boundaries, underscores and spaces.
  So a layout such as `TwoColumn` gets the id `twocolumn` here, where the
  program gives `two column`.
- `camelCase` is the identity. That is exact on the ids of `PlainLayout`
  keys (letters and `-` only), where each id token is one lower-case word. It
  is not exact elsewhere. For an id holding `_`, spaces or digits, the
  program's `camelCase` joins words that the model keeps apart: `Foo_Bar`
  gives the name `Foo_bar` here, where the program's `camelCase` first joins
  `foo` and `bar` into `fooBar`. In the
  program a multi-word id such as `two column` likewise becomes `twoColumn`
  before `capitalize`.
- `capitalize` upper-cases the first letter. The model only applies it to
  words it has lower-cased, where lodash's version agrees.
- Blocks.ResolutionIgnoresCase: requires plain layout keys (`PlainLayout`).
  For any other key, lodash's word splitting can give two keys that differ
  only in case different ids (`BannerHero` gives `banner hero`, `Bannerhero`
  gives `bannerhero`).
- The HTML strings are built without the indentation and line breaks of the
  source's multi-line strings.
- Metadata keys named `fields`, `twig` or `module` would overwrite the promoted
  constructor properties in PHP. The model keeps those apart; the block never
  passes such keys.
- Every located class is assumed to be a `Module` whose constructor is
  `Module::__construct` (the component is a `Module?`). The page-template
  class `ThemeName\Views\{Type}\Single` (`Block.php:201`) is not part of this
  model. If it did not extend `Module`, `Container::create` (`Container.php:40`)
  would throw a TypeError that `Block.RenderComponent` does not represent.
- A `WP_Post` carries only its `post_type` here; its other properties
  (such as `post_title`) are not modelled.
- PHP's typed-property coercion on `$layout`/`$index` is not modelled.
- A null `$fields` is not modelled: blocks always receive an array.
- `$a[] = $v` takes the next integer key to be the count of integer keys. This
  is exact for the arrays `array_merge` builds, which are the only ones it is
  applied to.
- Offset access on an object inside `??` is treated as unset.
- `Module::debug` (Kint dumps) is not modelled.
- PHP warnings are not modelled. They do not change the result. Reading the
  undefined `$attrbutes` (`Block.php:143`) and a missing `block-attributes`
  key (`Block.php:131`) each raise E_WARNING and read as null.

## Findings

| source | as written | input that shows it | evidently intended | confidence | as-written member | corrected member |
|---|---|---|---|---|---|---|
| functions/ThemeName/Layout/Block/Block.php:143 | the guard tests the misspelled, undefined `$attrbutes`, so `is_array` is always false and element 0 is never unwrapped | `block-attributes` = `[0 => ['id' => 'x']]` is handed on still wrapped | test `$attributes`, so element 0 replaces the attributes when it holds one of the default keys, as the comment at lines 135-142 says | high; not executed | `Blocks.AsWrittenKeepsWrapper` | `Blocks.IntendedUnwrap` |

Both variants are the same method, `GetBlockAttributes(fields, guarded)`. The
argument `guarded` is the value the guard tests:

- As written, it is `Null`, the undefined variable. The `Block` model uses this
  form, because it is what the program does.
- Intended, it is the attribute array, and the unwrap takes place.
