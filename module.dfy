/**
 * The parent class of every content module (`ThemeName\Modules\Module`).
 * A module object is modelled by its property table: every property,
 * declared or dynamic, is an entry of `props`, except the promoted
 * constructor properties `fields` and `module` (here `meta`), which are fields of their own.
 */
module Modules {
  import opened Wrappers
  import opened Strings
  import opened PhpValues

  /** The property name `$this->{$key}` addresses: integer keys by their decimal form. */
  function PropertyName(k: Key): string
  {
    match k
    case StrKey(s) => s
    case IntKey(i) => IntToDecimal(i)
  }

  /** No two entries address the same property (true of every PHP array, whose numeric string keys are integers). */
  predicate DistinctNames(es: Entries)
  {
    forall i, j :: 0 <= i < j < |es| ==> PropertyName(es[i].0) != PropertyName(es[j].0)
  }

  /** Assigns `$this->{$key} = $value` for every entry, in order. */
  function Assign(props: map<string, Value>, es: Entries): map<string, Value>
    decreases |es|
  {
    if |es| == 0 then props else Assign(props[PropertyName(es[0].0) := es[0].1], es[1..])
  }

  /** The property table after `getModuleValues`: nothing is assigned when `$module` is null. */
  function WithModuleValues(props: map<string, Value>, meta: Option<Entries>): map<string, Value>
  {
    match meta
    case None => props
    case Some(es) => Assign(props, es)
  }

  class Module {
    var fields: Entries
    var meta: Option<Entries>
    var props: map<string, Value>
    /**
     * What an overriding `render()` returns (through Twig, opaque here);
     * None for a class that keeps the parent's `render()`.
     */
    const rendering: Option<string>

    /**
     * `new Module($fields, $twig, $module)`: first the field values (the
     * `Fields` trait, given here as `fieldValues`), then the module values.
     */
    constructor (fields: Entries, meta: Option<Entries>, fieldValues: map<string, Value>, rendering: Option<string>)
      ensures this.fields == fields && this.meta == meta && this.rendering == rendering
      ensures props == WithModuleValues(fieldValues, meta)
    {
      this.fields := fields;
      this.meta := meta;
      this.rendering := rendering;
      props := fieldValues;
      new;
      GetModuleValues();
    }

    /** Copies every key of the meta metadata onto the object, in order. */
    method GetModuleValues()
      modifies this`props
      ensures props == WithModuleValues(old(props), meta)
    {
      if meta.Some? {
        var es := meta.value;
        var i := 0;
        while i < |es|
          invariant 0 <= i <= |es|
          invariant Assign(props, es[i..]) == Assign(old(props), es)
        {
          assert es[i..][1..] == es[i + 1..];
          props := props[PropertyName(es[i].0) := es[i].1];
          i := i + 1;
        }
      }
    }

    /** `$this->{$name}`; an undefined property reads as null. */
    function Property(name: string): Value
      reads this
    {
      if name in props then props[name] else Null
    }

    /** `render()`: the parent class renders nothing. */
    function Render(): (html: string)
      ensures rendering.None? ==> html == ""
      ensures rendering.Some? ==> html == rendering.value
    {
      if rendering.Some? then rendering.value else ""
    }
  }

  // ---------------------------------------------------------------------
  // Lemmas

  /** Every metadata key becomes a property holding that key's value. */
  lemma {:induction false} ModuleValueAssigned(props: map<string, Value>, es: Entries, i: nat)
    requires DistinctNames(es) && i < |es|
    ensures PropertyName(es[i].0) in Assign(props, es)
    ensures Assign(props, es)[PropertyName(es[i].0)] == es[i].1
    decreases |es|
  {
    var rest := es[1..];
    assert DistinctNames(rest) by {
      forall a, b | 0 <= a < b < |rest| ensures PropertyName(rest[a].0) != PropertyName(rest[b].0) {
        assert rest[a] == es[a + 1] && rest[b] == es[b + 1];
      }
    }
    if i == 0 {
      ModuleValueUntouched(props[PropertyName(es[0].0) := es[0].1], rest, PropertyName(es[0].0));
    } else {
      assert rest[i - 1] == es[i];
      ModuleValueAssigned(props[PropertyName(es[0].0) := es[0].1], rest, i - 1);
    }
  }

  /** A property no metadata key names keeps its presence and its value. */
  lemma {:induction false} ModuleValueUntouched(props: map<string, Value>, es: Entries, name: string)
    requires forall i :: 0 <= i < |es| ==> PropertyName(es[i].0) != name
    ensures name in Assign(props, es) <==> name in props
    ensures name in props ==> Assign(props, es)[name] == props[name]
    decreases |es|
  {
    if |es| > 0 {
      forall i | 0 <= i < |es[1..]| ensures PropertyName(es[1..][i].0) != name {
        assert es[1..][i] == es[i + 1];
      }
      ModuleValueUntouched(props[PropertyName(es[0].0) := es[0].1], es[1..], name);
    }
  }

  /** The property table afterwards holds exactly the earlier properties and the metadata keys. */
  lemma {:induction false} ModuleValueKeys(props: map<string, Value>, es: Entries)
    ensures Assign(props, es).Keys == props.Keys + set i | 0 <= i < |es| :: PropertyName(es[i].0)
    decreases |es|
  {
    if |es| > 0 {
      ModuleValueKeys(props[PropertyName(es[0].0) := es[0].1], es[1..]);
      var names := set i | 0 <= i < |es| :: PropertyName(es[i].0);
      var restNames := set i | 0 <= i < |es[1..]| :: PropertyName(es[1..][i].0);
      assert names == {PropertyName(es[0].0)} + restNames by {
        forall n | n in names ensures n in {PropertyName(es[0].0)} + restNames {
          var i :| 0 <= i < |es| && PropertyName(es[i].0) == n;
          if i > 0 { assert es[1..][i - 1] == es[i]; }
        }
        forall n | n in restNames ensures n in names {
          var i :| 0 <= i < |es[1..]| && PropertyName(es[1..][i].0) == n;
          assert es[1..][i] == es[i + 1];
        }
      }
    }
  }

  /**
   * Field values are set before meta values, so a metadata key wins over a
   * field-derived property of the same name; with null metadata nothing changes.
   */
  lemma MetadataOverridesFields(fieldValues: map<string, Value>, meta: Option<Entries>, name: string)
    requires name in fieldValues
    ensures meta.None? ==> WithModuleValues(fieldValues, meta) == fieldValues
    ensures meta.Some? && DistinctNames(meta.value) && Get(meta.value, StrKey(name)).Some?
            ==> name in WithModuleValues(fieldValues, meta)
                && WithModuleValues(fieldValues, meta)[name] == Get(meta.value, StrKey(name)).value
  {
    if meta.Some? && DistinctNames(meta.value) && Get(meta.value, StrKey(name)).Some? {
      var es := meta.value;
      var i :| 0 <= i < |es| && es[i] == (StrKey(name), Get(es, StrKey(name)).value);
      ModuleValueAssigned(fieldValues, es, i);
    }
  }
}
