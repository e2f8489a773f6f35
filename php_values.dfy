/**
 * The PHP values the theme core passes around. A PHP array is an ORDERED
 * list of key/value entries (the order is what `implode` and `foreach`
 * see), keyed by integers or strings.
 */
module PhpValues {
  import opened Wrappers
  import opened Strings

  datatype Key = IntKey(i: int) | StrKey(s: string)

  /**
   * `Obj` stands for an object such as the `WP_Post`: its class name and the
   * public properties the core reads.
   */
  datatype Value =
    | Null
    | Bool(b: bool)
    | Int(n: int)
    | Str(s: string)
    | Arr(entries: seq<(Key, Value)>)
    | Obj(cls: string, properties: seq<(Key, Value)>)

  type Entries = seq<(Key, Value)>

  /** The exceptions and errors the core can throw. */
  datatype Error =
    | ModuleNotFound(name: string)   // the `\Exception` of Block::validateComponent
    | TypeError(message: string)     // a PHP TypeError or Error raised by the engine

  /** Every PHP array has pairwise distinct keys. */
  predicate DistinctKeys(a: Entries)
  {
    forall i, j :: 0 <= i < j < |a| ==> a[i].0 != a[j].0
  }

  /** `$a[$k]`, or None when `array_key_exists($k, $a)` is false. */
  function Get(a: Entries, k: Key): (r: Option<Value>)
    ensures r.None? <==> forall i :: 0 <= i < |a| ==> a[i].0 != k
    ensures r.Some? ==> exists i :: 0 <= i < |a| && a[i] == (k, r.value)
  {
    if |a| == 0 then None
    else if a[0].0 == k then Some(a[0].1)
    else
      var r := Get(a[1..], k);
      assert r.Some? ==> exists i :: 0 <= i < |a[1..]| && a[1..][i] == (k, r.value);
      r
  }

  /** The values of an array, in order (what `implode` and `array_values` see). */
  function Values(a: Entries): seq<Value>
  {
    seq(|a|, i requires 0 <= i < |a| => a[i].1)
  }

  /** `$a[$k] = $v`: overwrites in place when the key exists, otherwise appends. */
  function Set(a: Entries, k: Key, v: Value): Entries
  {
    if |a| == 0 then [(k, v)]
    else if a[0].0 == k then [(k, v)] + a[1..]
    else [a[0]] + Set(a[1..], k, v)
  }

  function IntKeyCount(a: Entries): nat
  {
    if |a| == 0 then 0 else (if a[0].0.IntKey? then 1 else 0) + IntKeyCount(a[1..])
  }

  /**
   * `$a[] = $v` on an array whose integer keys are 0 .. n-1 (as every array
   * built by `array_merge` is): the next integer key is n.
   */
  function Append(a: Entries, v: Value): Entries
  {
    a + [(IntKey(IntKeyCount(a)), v)]
  }

  /** One step of `array_merge`: integer keys are renumbered, string keys overwrite. */
  function MergeStep(acc: Entries, e: (Key, Value)): Entries
  {
    if e.0.IntKey? then Append(acc, e.1) else Set(acc, e.0, e.1)
  }

  function MergeInto(acc: Entries, xs: Entries): Entries
    decreases |xs|
  {
    if |xs| == 0 then acc else MergeInto(MergeStep(acc, xs[0]), xs[1..])
  }

  /** `array_merge($a, $b)`. */
  function ArrayMerge(a: Entries, b: Entries): Entries
  {
    MergeInto(MergeInto([], a), b)
  }

  /** PHP's conversion of a value to a string; None where PHP throws (an object without `__toString`). */
  function Text(v: Value): Option<string>
  {
    match v
    case Null => Some("")
    case Bool(b) => Some(if b then "1" else "")
    case Int(n) => Some(IntToDecimal(n))
    case Str(s) => Some(s)
    case Arr(_) => Some("Array")
    case Obj(_, _) => None
  }

  function Texts(vs: seq<Value>): Option<seq<string>>
  {
    if |vs| == 0 then Some([])
    else match (Text(vs[0]), Texts(vs[1..]))
      case (Some(t), Some(ts)) => Some([t] + ts)
      case _ => None
  }

  /** `implode($sep, $a)`. */
  function Implode(sep: string, a: Entries): Result<string, Error>
  {
    match Texts(Values(a))
    case Some(ts) => Ok(Join(ts, sep))
    case None => Failure(TypeError("Object could not be converted to string"))
  }

  // ---------------------------------------------------------------------
  // Lemmas

  lemma {:induction false} GetAfterSet(a: Entries, k: Key, v: Value, k': Key)
    ensures Get(Set(a, k, v), k') == if k' == k then Some(v) else Get(a, k')
  {
    if |a| > 0 && a[0].0 != k {
      GetAfterSet(a[1..], k, v, k');
      assert ([a[0]] + Set(a[1..], k, v))[1..] == Set(a[1..], k, v);
    }
  }

  lemma {:induction false} GetAfterSnoc(a: Entries, e: (Key, Value), k: Key)
    requires e.0 != k
    ensures Get(a + [e], k) == Get(a, k)
  {
    if |a| > 0 {
      assert (a + [e])[1..] == a[1..] + [e];
      GetAfterSnoc(a[1..], e, k);
    }
  }

  lemma GetAfterAppend(a: Entries, v: Value, s: string)
    ensures Get(Append(a, v), StrKey(s)) == Get(a, StrKey(s))
  {
    GetAfterSnoc(a, (IntKey(IntKeyCount(a)), v), StrKey(s));
  }

  lemma {:induction false} SetFreshKey(a: Entries, k: Key, v: Value)
    requires Get(a, k).None?
    ensures Set(a, k, v) == a + [(k, v)]
  {
    if |a| > 0 {
      SetFreshKey(a[1..], k, v);
      assert a == [a[0]] + a[1..];
    }
  }

  lemma ValuesAppend(a: Entries, e: (Key, Value))
    ensures Values(a + [e]) == Values(a) + [e.1]
  {
  }

  /**
   * Reading a string key after `array_merge`: the later array wins when it
   * has the key, otherwise the earlier array's entry remains.
   */
  lemma {:induction false} GetAfterMerge(acc: Entries, xs: Entries, s: string)
    requires DistinctKeys(xs)
    ensures Get(MergeInto(acc, xs), StrKey(s))
         == if Get(xs, StrKey(s)).Some? then Get(xs, StrKey(s)) else Get(acc, StrKey(s))
    decreases |xs|
  {
    if |xs| > 0 {
      var next := MergeStep(acc, xs[0]);
      DistinctKeysTail(xs);
      GetAfterMerge(next, xs[1..], s);
      if xs[0].0.IntKey? {
        GetAfterAppend(acc, xs[0].1, s);
      } else {
        GetAfterSet(acc, xs[0].0, xs[0].1, StrKey(s));
      }
    }
  }

  lemma DistinctKeysTail(xs: Entries)
    requires |xs| > 0 && DistinctKeys(xs)
    ensures DistinctKeys(xs[1..])
    ensures forall i :: 0 <= i < |xs[1..]| ==> xs[1..][i].0 != xs[0].0
  {
    var rest := xs[1..];
    forall i, j | 0 <= i < j < |rest| ensures rest[i].0 != rest[j].0 {
      assert rest[i] == xs[i + 1] && rest[j] == xs[j + 1];
    }
    forall i | 0 <= i < |rest| ensures rest[i].0 != xs[0].0 {
      assert rest[i] == xs[i + 1];
    }
  }

  /** One merge step adds the entry's value at the end and no string key other than the entry's own. */
  lemma MergeStepFresh(acc: Entries, e: (Key, Value), rest: Entries)
    requires e.0.StrKey? ==> Get(acc, e.0).None?
    requires forall i :: 0 <= i < |rest| ==> rest[i].0 != e.0
    requires forall i :: 0 <= i < |rest| && rest[i].0.StrKey? ==> Get(acc, rest[i].0).None?
    ensures Values(MergeStep(acc, e)) == Values(acc) + [e.1]
    ensures forall i :: 0 <= i < |rest| && rest[i].0.StrKey? ==> Get(MergeStep(acc, e), rest[i].0).None?
  {
    if e.0.IntKey? {
      ValuesAppend(acc, (IntKey(IntKeyCount(acc)), e.1));
    } else {
      SetFreshKey(acc, e.0, e.1);
      ValuesAppend(acc, e);
    }
    forall i | 0 <= i < |rest| && rest[i].0.StrKey?
      ensures Get(MergeStep(acc, e), rest[i].0).None?
    {
      if e.0.IntKey? {
        GetAfterAppend(acc, e.1, rest[i].0.s);
      } else {
        GetAfterSet(acc, e.0, e.1, rest[i].0);
      }
    }
  }

  /**
   * When the later array brings no string key the earlier one has, `array_merge`
   * lists the earlier array's values followed by the later array's values.
   */
  lemma {:induction false} ValuesAfterMerge(acc: Entries, xs: Entries)
    requires DistinctKeys(xs)
    requires forall i :: 0 <= i < |xs| && xs[i].0.StrKey? ==> Get(acc, xs[i].0).None?
    ensures Values(MergeInto(acc, xs)) == Values(acc) + Values(xs)
    decreases |xs|
  {
    if |xs| > 0 {
      var rest := xs[1..];
      DistinctKeysTail(xs);
      forall i | 0 <= i < |rest| && rest[i].0.StrKey? ensures Get(acc, rest[i].0).None? {
        assert rest[i] == xs[i + 1];
      }
      MergeStepFresh(acc, xs[0], rest);
      ValuesAfterMerge(MergeStep(acc, xs[0]), rest);
      assert Values(xs) == [xs[0].1] + Values(rest);
    }
  }

  lemma TextsSingle(v: Value)
    requires Text(v).Some?
    ensures Texts([v]) == Some([Text(v).value])
  {
    assert [v][1..] == [];
    assert Texts([v][1..]) == Some([]);
    assert [Text(v).value] + [] == [Text(v).value];
  }

  lemma {:induction false} TextsConcat(a: seq<Value>, b: seq<Value>)
    ensures Texts(a + b) == match (Texts(a), Texts(b))
                            case (Some(ta), Some(tb)) => Some(ta + tb)
                            case _ => None
  {
    if |a| > 0 {
      assert (a + b)[0] == a[0];
      assert (a + b)[1..] == a[1..] + b;
      TextsConcat(a[1..], b);
      if Text(a[0]).Some? && Texts(a[1..]).Some? && Texts(b).Some? {
        var t, ta, tb := Text(a[0]).value, Texts(a[1..]).value, Texts(b).value;
        assert [t] + (ta + tb) == ([t] + ta) + tb;
      }
    } else {
      assert a + b == b;
      if Texts(b).Some? {
        assert [] + Texts(b).value == Texts(b).value;
      }
    }
  }
}
