/**
 * JSON values as the generators build and read them (`writeJson`,
 * `readJson`, object literals with spreads). An object is its fields in
 * property order; assigning an existing property keeps its place,
 * assigning a new one appends it.
 */
module JsonValue {
  import opened Wrappers

  datatype Json =
    | JNull
    | JBool(b: bool)
    | JNum(n: int)
    | JStr(s: string)
    | JArr(items: seq<Json>)
    | JObj(fields: seq<Field>)

  datatype Field = Field(key: string, value: Json)

  /** A string-valued property, `key: 'value'`. */
  function Str(key: string, value: string): Field
  {
    Field(key, JStr(value))
  }

  function Keys(fs: seq<Field>): seq<string>
    decreases |fs|
  {
    if fs == [] then [] else [fs[0].key] + Keys(fs[1..])
  }

  /** Property lookup: the first field with that key. */
  function Get(fs: seq<Field>, k: string): (r: Option<Json>)
    ensures r.None? <==> k !in Keys(fs)
    decreases |fs|
  {
    if fs == [] then None else if fs[0].key == k then Some(fs[0].value) else Get(fs[1..], k)
  }

  /** `o[k] = v`: overwrite in place if present, otherwise append. */
  function Put(fs: seq<Field>, k: string, v: Json): seq<Field>
    decreases |fs|
  {
    if k in Keys(fs) then SetExisting(fs, k, v) else fs + [Field(k, v)]
  }

  function SetExisting(fs: seq<Field>, k: string, v: Json): seq<Field>
    decreases |fs|
  {
    if fs == [] then []
    else if fs[0].key == k then [Field(k, v)] + SetExisting(fs[1..], k, v)
    else [fs[0]] + SetExisting(fs[1..], k, v)
  }

  /** `{...base, k1: v1, k2: v2, …}` given the fields of `base`. */
  function PutAll(fs: seq<Field>, extra: seq<Field>): seq<Field>
    decreases |extra|
  {
    if extra == [] then fs else PutAll(Put(fs, extra[0].key, extra[0].value), extra[1..])
  }

  /** The fields a spread `...x` copies: those of an object, none for undefined or null. */
  function SpreadFields(x: Option<Json>): seq<Field>
  {
    match x
    case Some(JObj(fs)) => fs
    case _ => []
  }

  /** The value the last field with key `k` carries. */
  function LastValue(extra: seq<Field>, k: string): Json
    requires k in Keys(extra)
    decreases |extra|
  {
    if k in Keys(extra[1..]) then LastValue(extra[1..], k) else extra[0].value
  }

  // ------------------------------------------------------------------ lemmas

  lemma KeysAppend(xs: seq<Field>, ys: seq<Field>)
    ensures Keys(xs + ys) == Keys(xs) + Keys(ys)
    decreases |xs|
  {
    if xs == [] {
      assert xs + ys == ys;
    } else {
      assert (xs + ys)[1..] == xs[1..] + ys;
      KeysAppend(xs[1..], ys);
    }
  }

  lemma {:induction false} SetExistingKeys(fs: seq<Field>, k: string, v: Json)
    ensures Keys(SetExisting(fs, k, v)) == Keys(fs)
    decreases |fs|
  {
    if fs != [] {
      SetExistingKeys(fs[1..], k, v);
    }
  }

  lemma {:induction false} SetExistingGet(fs: seq<Field>, k: string, v: Json, q: string)
    requires k in Keys(fs)
    ensures Get(SetExisting(fs, k, v), q) == if q == k then Some(v) else Get(fs, q)
    decreases |fs|
  {
    if fs[0].key != k {
      SetExistingGet(fs[1..], k, v, q);
    } else if q != k && k in Keys(fs[1..]) {
      SetExistingGet(fs[1..], k, v, q);
    } else if q != k {
      SetExistingUntouched(fs[1..], k, v);
    }
  }

  lemma {:induction false} SetExistingUntouched(fs: seq<Field>, k: string, v: Json)
    requires k !in Keys(fs)
    ensures SetExisting(fs, k, v) == fs
    decreases |fs|
  {
    if fs != [] {
      SetExistingUntouched(fs[1..], k, v);
    }
  }

  lemma {:induction false} GetAppendNew(fs: seq<Field>, k: string, v: Json, q: string)
    requires k !in Keys(fs)
    ensures Get(fs + [Field(k, v)], q) == if q == k then Some(v) else Get(fs, q)
    decreases |fs|
  {
    if fs == [] {
    } else {
      assert (fs + [Field(k, v)])[1..] == fs[1..] + [Field(k, v)];
      GetAppendNew(fs[1..], k, v, q);
    }
  }

  /** After `o[k] = v`, reading `k` gives `v` and every other property is unchanged. */
  lemma GetPut(fs: seq<Field>, k: string, v: Json, q: string)
    ensures Get(Put(fs, k, v), q) == if q == k then Some(v) else Get(fs, q)
  {
    if k in Keys(fs) {
      SetExistingGet(fs, k, v, q);
    } else {
      GetAppendNew(fs, k, v, q);
    }
  }

  /** `o[k] = v` keeps every existing key in its place and adds `k` last if it was new. */
  lemma KeysPut(fs: seq<Field>, k: string, v: Json)
    ensures Keys(Put(fs, k, v)) == if k in Keys(fs) then Keys(fs) else Keys(fs) + [k]
  {
    if k in Keys(fs) {
      SetExistingKeys(fs, k, v);
    } else {
      KeysAppend(fs, [Field(k, v)]);
    }
  }

  /** A spread followed by literal properties: the literal's last value wins, other keys keep theirs. */
  lemma {:induction false} GetPutAll(fs: seq<Field>, extra: seq<Field>, q: string)
    ensures Get(PutAll(fs, extra), q) == if q in Keys(extra) then Some(LastValue(extra, q)) else Get(fs, q)
    decreases |extra|
  {
    if extra != [] {
      GetPutAll(Put(fs, extra[0].key, extra[0].value), extra[1..], q);
      GetPut(fs, extra[0].key, extra[0].value, q);
    }
  }

  /** Keys already present survive a spread-and-extend. */
  lemma {:induction false} KeysPutAll(fs: seq<Field>, extra: seq<Field>, q: string)
    ensures q in Keys(PutAll(fs, extra)) <==> q in Keys(fs) || q in Keys(extra)
    decreases |extra|
  {
    if extra != [] {
      KeysPutAll(Put(fs, extra[0].key, extra[0].value), extra[1..], q);
      KeysPut(fs, extra[0].key, extra[0].value);
    }
  }
}
