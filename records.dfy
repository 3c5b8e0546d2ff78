/**
 * Plain JavaScript objects as sequences of (key, value) properties in their
 * enumeration order, with the assignment `obj[key] = value` and the object
 * spread `{...base, ...extra}` that the monitoring code uses to build label
 * sets and log metadata.
 */
module Records {
  import opened Wrappers

  /** An object's own properties, in the order `Object.entries` lists them. */
  type Fields<V> = seq<(string, V)>

  function Keys<V>(fs: Fields<V>): (ks: seq<string>)
    ensures |ks| == |fs| && forall i | 0 <= i < |fs| :: ks[i] == fs[i].0
  {
    if fs == [] then [] else [fs[0].0] + Keys(fs[1..])
  }

  /** No two properties share a key, as in every JavaScript object. */
  predicate UniqueKeys<V>(fs: Fields<V>) {
    forall i, j | 0 <= i < j < |fs| :: fs[i].0 != fs[j].0
  }

  /** `obj[k]`: the value of the property named `k`, if there is one. */
  function Get<V>(fs: Fields<V>, k: string): (r: Option<V>)
    ensures r.None? <==> k !in Keys(fs)
  {
    if fs == [] then None else if fs[0].0 == k then Some(fs[0].1) else Get(fs[1..], k)
  }

  /**
   * `obj[k] = v`: an existing property keeps its position and takes the new
   * value, a new one is added last.
   */
  function Assign<V>(fs: Fields<V>, k: string, v: V): (r: Fields<V>)
  {
    if fs == [] then [(k, v)]
    else if fs[0].0 == k then [(k, v)] + fs[1..]
    else [fs[0]] + Assign(fs[1..], k, v)
  }

  /** Assignment adds `k` at the end exactly when it was not a key already. */
  lemma {:induction false} AssignKeys<V>(fs: Fields<V>, k: string, v: V)
    ensures Keys(Assign(fs, k, v)) == if k in Keys(fs) then Keys(fs) else Keys(fs) + [k]
  {
    if fs != [] && fs[0].0 != k {
      AssignKeys(fs[1..], k, v);
      assert Keys(fs) == [fs[0].0] + Keys(fs[1..]);
    }
  }

  /** After `obj[k] = v`, reading `k` gives `v` and every other key reads as before. */
  lemma {:induction false} AssignGet<V>(fs: Fields<V>, k: string, v: V, k': string)
    ensures Get(Assign(fs, k, v), k') == if k' == k then Some(v) else Get(fs, k')
  {
    if fs != [] && fs[0].0 != k {
      AssignGet(fs[1..], k, v, k');
    }
  }

  /** Assigning a key the object does not have yet appends the property. */
  lemma {:induction false} AssignNew<V>(fs: Fields<V>, k: string, v: V)
    requires k !in Keys(fs)
    ensures Assign(fs, k, v) == fs + [(k, v)]
  {
    if fs != [] {
      assert Keys(fs) == [fs[0].0] + Keys(fs[1..]);
      AssignNew(fs[1..], k, v);
      assert fs == [fs[0]] + fs[1..];
    }
  }

  /** Assigning the key of the property at `i`, the first with that key, replaces its value in place. */
  lemma {:induction false} AssignAt<V>(fs: Fields<V>, i: nat, k: string, v: V)
    requires i < |fs| && fs[i].0 == k && forall j | 0 <= j < i :: fs[j].0 != k
    ensures Assign(fs, k, v) == fs[i := (k, v)]
  {
    if i > 0 {
      AssignAt(fs[1..], i - 1, k, v);
      assert fs[1..][i - 1 := (k, v)] == fs[i := (k, v)][1..];
    }
  }

  /** Reading the key of the property at `i`, the first with that key, gives its value. */
  lemma {:induction false} GetAt<V>(fs: Fields<V>, i: nat, k: string)
    requires i < |fs| && fs[i].0 == k && forall j | 0 <= j < i :: fs[j].0 != k
    ensures Get(fs, k) == Some(fs[i].1)
  {
    if i > 0 {
      GetAt(fs[1..], i - 1, k);
    }
  }

  /** Assignment keeps the keys of an object distinct. */
  lemma {:induction false} AssignUnique<V>(fs: Fields<V>, k: string, v: V)
    requires UniqueKeys(fs)
    ensures UniqueKeys(Assign(fs, k, v))
  {
    var r := Assign(fs, k, v);
    AssignKeys(fs, k, v);
    forall i, j | 0 <= i < j < |r| ensures r[i].0 != r[j].0 {
      assert Keys(r)[i] == r[i].0 && Keys(r)[j] == r[j].0;
    }
  }

  /** `{...base, ...extra}`: the properties of `extra` assigned onto a copy of `base`, in order. */
  function Spread<V>(base: Fields<V>, extra: Fields<V>): Fields<V>
    decreases |extra|
  {
    if extra == [] then base else Spread(Assign(base, extra[0].0, extra[0].1), extra[1..])
  }

  /**
   * A key of a spread object reads from `extra` when `extra` has it, otherwise
   * from `base`.
   */
  lemma {:induction false} SpreadGet<V>(base: Fields<V>, extra: Fields<V>, k: string)
    requires UniqueKeys(extra)
    ensures Get(Spread(base, extra), k) == if k in Keys(extra) then Get(extra, k) else Get(base, k)
    decreases |extra|
  {
    if extra != [] {
      var rest := extra[1..];
      assert UniqueKeys(rest) by {
        forall i, j | 0 <= i < j < |rest| ensures rest[i].0 != rest[j].0 {
          assert rest[i] == extra[i + 1] && rest[j] == extra[j + 1];
        }
      }
      assert extra[0].0 !in Keys(rest) by {
        forall i | 0 <= i < |rest| ensures Keys(rest)[i] != extra[0].0 {
          assert rest[i] == extra[i + 1];
        }
      }
      assert Keys(extra) == [extra[0].0] + Keys(rest);
      SpreadGet(Assign(base, extra[0].0, extra[0].1), rest, k);
      AssignGet(base, extra[0].0, extra[0].1, k);
    }
  }
}
