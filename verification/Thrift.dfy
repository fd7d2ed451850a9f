/** The Thrift binary protocol, as far as the request codec uses it: integers are big-endian, a field
    is a type byte, a 16-bit id and a value, a struct is its fields and a zero byte, a string is a
    32-bit length and its bytes, a list or set an element type, a 32-bit count and its elements, a map
    two element types, a count and its pairs. */
module Thrift {
  import opened Types

  const STOP: byte := 0
  const STRING: byte := 11
  const STRUCT: byte := 12
  const MAP: byte := 13
  const SET: byte := 14
  const LIST: byte := 15

  const LIMIT: nat := 0x8000_0000

  /** The size of a fixed-size type: bool, byte, double, i16, i32, i64. */
  function FixedSize(t: byte): Option<nat> {
    if t == 2 || t == 3 then Some(1)
    else if t == 6 then Some(2)
    else if t == 8 then Some(4)
    else if t == 4 || t == 10 then Some(8)
    else None
  }

  // ---- integers ----------------------------------------------------------------------------

  function EncI16(n: int): Bytes
    requires -0x8000 <= n < 0x8000
  {
    var u := if n < 0 then n + 0x1_0000 else n;
    [(u / 256) as byte, (u % 256) as byte]
  }

  function DecI16(a: byte, b: byte): int {
    var u := a as int * 256 + b as int;
    if u < 0x8000 then u else u - 0x1_0000
  }

  function EncI32(n: nat): Bytes
    requires n < LIMIT
  {
    [(n / 0x100_0000) as byte, (n / 0x1_0000 % 256) as byte, (n / 0x100 % 256) as byte, (n % 256) as byte]
  }

  function DecI32(b: Bytes): int
    requires |b| >= 4
  {
    var u := b[0] as int * 0x100_0000 + b[1] as int * 0x1_0000 + b[2] as int * 0x100 + b[3] as int;
    if u < LIMIT then u else u - 0x1_0000_0000
  }

  lemma {:induction false} I16RoundTrip(n: int)
    requires -0x8000 <= n < 0x8000
    ensures DecI16(EncI16(n)[0], EncI16(n)[1]) == n
  {
  }

  lemma {:induction false} I32RoundTrip(n: nat, rest: Bytes)
    requires n < LIMIT
    ensures DecI32(EncI32(n) + rest) == n
  {
    var a, b, c, d := n / 0x100_0000, n / 0x1_0000 % 256, n / 0x100 % 256, n % 256;
    assert n / 0x100 == (n / 0x1_0000) * 256 + c;
    assert n / 0x1_0000 == a * 256 + b;
  }

  // ---- values ------------------------------------------------------------------------------

  datatype Val =
    | Fixed(t: byte, raw: Bytes)
    | Str(text: Bytes)
    | Strct(fields: Fields)
    | Coll(kind: byte, elem: byte, items: Vals)          // set or list
    | Dict(key: byte, elem: byte, items: Vals)           // keys and values in turn

  datatype Vals = Nil | Cons(head: Val, tail: Vals)
  datatype Fields = End | Field(id: int, v: Val, rest: Fields)

  function TypeOf(v: Val): byte {
    match v
    case Fixed(t, _) => t
    case Str(_) => STRING
    case Strct(_) => STRUCT
    case Coll(kind, _, _) => kind
    case Dict(_, _, _) => MAP
  }

  function Count(vs: Vals): nat {
    match vs case Nil => 0 case Cons(_, tail) => 1 + Count(tail)
  }

  predicate WfVal(v: Val) {
    match v
    case Fixed(t, raw) => FixedSize(t) == Some(|raw|)
    case Str(text) => |text| < LIMIT
    case Strct(fields) => WfFields(fields)
    case Coll(kind, elem, items) => (kind == SET || kind == LIST) && WfVals(items, elem, elem) && Count(items) < LIMIT
    case Dict(key, elem, items) => WfVals(items, key, elem) && Count(items) % 2 == 0 && Count(items) / 2 < LIMIT
  }

  /** Types a and b in turn, starting with a. */
  predicate WfVals(vs: Vals, a: byte, b: byte) {
    match vs
    case Nil => true
    case Cons(head, tail) => TypeOf(head) == a && WfVal(head) && WfVals(tail, b, a)
  }

  predicate WfFields(fs: Fields) {
    match fs
    case End => true
    case Field(id, v, rest) => -0x8000 <= id < 0x8000 && WfVal(v) && WfFields(rest)
  }

  function EncVal(v: Val): Bytes
    requires WfVal(v)
  {
    match v
    case Fixed(_, raw) => raw
    case Str(text) => EncI32(|text|) + text
    case Strct(fields) => EncFields(fields)
    case Coll(_, elem, items) => [elem] + EncI32(Count(items)) + EncVals(items, elem, elem)
    case Dict(key, elem, items) => [key, elem] + EncI32(Count(items) / 2) + EncVals(items, key, elem)
  }

  function EncVals(vs: Vals, a: byte, b: byte): Bytes
    requires WfVals(vs, a, b)
  {
    match vs
    case Nil => []
    case Cons(head, tail) => EncVal(head) + EncVals(tail, b, a)
  }

  function EncFields(fs: Fields): Bytes
    requires WfFields(fs)
  {
    match fs
    case End => [STOP]
    case Field(id, v, rest) => [TypeOf(v)] + EncI16(id) + EncVal(v) + EncFields(rest)
  }

  // ---- Skip --------------------------------------------------------------------------------

  /** The 32-bit integer at offset i. */
  function Int32At(buf: Bytes, i: nat): int
    requires i + 4 <= |buf|
  {
    DecI32([buf[i], buf[i + 1], buf[i + 2], buf[i + 3]])
  }

  /** Where the value of type t at offset i ends; None if there is none. */
  function SkipAt(buf: Bytes, i: nat, t: byte): (r: Option<nat>)
    requires i <= |buf|
    ensures r.Some? ==> i <= r.value <= |buf|
    decreases |buf| - i, 1, 0
  {
    if FixedSize(t).Some? then
      if i + FixedSize(t).value <= |buf| then Some(i + FixedSize(t).value) else None
    else if t == STRING then
      if i + 4 > |buf| || Int32At(buf, i) < 0 || i + 4 + Int32At(buf, i) > |buf| then None
      else Some(i + 4 + Int32At(buf, i))
    else if t == STRUCT then FieldsAt(buf, i)
    else if t == SET || t == LIST then
      if i + 5 > |buf| || Int32At(buf, i + 1) < 0 then None
      else ManyAt(buf, i + 5, buf[i], buf[i], Int32At(buf, i + 1))
    else if t == MAP then
      if i + 6 > |buf| || Int32At(buf, i + 2) < 0 then None
      else ManyAt(buf, i + 6, buf[i], buf[i + 1], 2 * Int32At(buf, i + 2))
    else None
  }

  /** The same for n values, of types a and b in turn. */
  function ManyAt(buf: Bytes, i: nat, a: byte, b: byte, n: nat): (r: Option<nat>)
    requires i <= |buf|
    ensures r.Some? ==> i <= r.value <= |buf|
    decreases |buf| - i, 2, n
  {
    if n == 0 then Some(i)
    else
      match SkipAt(buf, i, a)
      case None => None
      case Some(j) => ManyAt(buf, j, b, a, n - 1)
  }

  /** The same for the fields of a struct and its end. */
  function FieldsAt(buf: Bytes, i: nat): (r: Option<nat>)
    requires i <= |buf|
    ensures r.Some? ==> i <= r.value <= |buf|
    decreases |buf| - i, 0, 0
  {
    if i + 1 > |buf| then None
    else if buf[i] == STOP then Some(i + 1)
    else if i + 3 > |buf| then None
    else
      match SkipAt(buf, i + 3, buf[i])
      case None => None
      case Some(j) => FieldsAt(buf, j)
  }

  /** The length of the value of type t at the front of the buffer. */
  function Skip(buf: Bytes, t: byte): (r: Option<nat>)
    ensures r.Some? ==> r.value <= |buf|
  {
    SkipAt(buf, 0, t)
  }

  predicate At(buf: Bytes, i: nat, bytes: Bytes) {
    i + |bytes| <= |buf| && forall j :: 0 <= j < |bytes| ==> buf[i + j] == bytes[j]
  }

  lemma {:induction false} AtParts(buf: Bytes, i: nat, a: Bytes, b: Bytes)
    requires At(buf, i, a + b)
    ensures At(buf, i, a) && At(buf, i + |a|, b)
  {
    forall j | 0 <= j < |a| ensures buf[i + j] == a[j] { assert (a + b)[j] == a[j]; }
    forall j | 0 <= j < |b| ensures buf[i + |a| + j] == b[j] { assert (a + b)[|a| + j] == b[j]; }
  }

  lemma {:induction false} Int32IsAt(buf: Bytes, i: nat, n: nat)
    requires n < LIMIT && At(buf, i, EncI32(n))
    ensures Int32At(buf, i) == n
  {
    I32RoundTrip(n, []);
    assert EncI32(n) + [] == EncI32(n);
    assert [buf[i], buf[i + 1], buf[i + 2], buf[i + 3]] == EncI32(n);
  }

  lemma {:induction false} StrAt(buf: Bytes, i: nat, text: Bytes)
    requires |text| < LIMIT && At(buf, i, EncI32(|text|) + text)
    ensures SkipAt(buf, i, STRING) == Some(i + 4 + |text|)
  {
    AtParts(buf, i, EncI32(|text|), text);
    Int32IsAt(buf, i, |text|);
  }

  lemma {:induction false} FirstAt(buf: Bytes, i: nat, bytes: Bytes)
    requires At(buf, i, bytes) && bytes != []
    ensures i < |buf| && buf[i] == bytes[0]
  {
    assert buf[i + 0] == bytes[0];
  }

  lemma {:induction false} CollAt(buf: Bytes, i: nat, kind: byte, elem: byte, n: nat, items: Bytes)
    requires (kind == SET || kind == LIST) && n < LIMIT && At(buf, i, [elem] + EncI32(n) + items)
    ensures At(buf, i + 5, items) && SkipAt(buf, i, kind) == ManyAt(buf, i + 5, elem, elem, n)
  {
    AtParts(buf, i, [elem] + EncI32(n), items);
    AtParts(buf, i, [elem], EncI32(n));
    FirstAt(buf, i, [elem]);
    Int32IsAt(buf, i + 1, n);
  }

  lemma {:induction false} DictAt(buf: Bytes, i: nat, key: byte, elem: byte, n: nat, items: Bytes)
    requires n < LIMIT && At(buf, i, [key, elem] + EncI32(n) + items)
    ensures At(buf, i + 6, items) && SkipAt(buf, i, MAP) == ManyAt(buf, i + 6, key, elem, 2 * n)
  {
    AtParts(buf, i, [key, elem] + EncI32(n), items);
    AtParts(buf, i, [key, elem], EncI32(n));
    assert [key] + [elem] == [key, elem];
    AtParts(buf, i, [key], [elem]);
    FirstAt(buf, i, [key]);
    FirstAt(buf, i + 1, [elem]);
    Int32IsAt(buf, i + 2, n);
  }

  lemma {:induction false} FieldAt(buf: Bytes, i: nat, id: int, t: byte, body: Bytes, more: Bytes)
    requires -0x8000 <= id < 0x8000 && At(buf, i, [t] + EncI16(id) + body + more)
    ensures i + 3 <= |buf| && buf[i] == t && At(buf, i + 3, body) && At(buf, i + 3 + |body|, more)
  {
    AtParts(buf, i, [t] + EncI16(id) + body, more);
    AtParts(buf, i, [t] + EncI16(id), body);
    FirstAt(buf, i, [t] + EncI16(id));
  }

  // One unfolding, for known parts.

  lemma {:induction false} ManyStep(buf: Bytes, i: nat, a: byte, b: byte, n: nat, j: nat, end: nat)
    requires i <= j <= |buf| && n > 0 && SkipAt(buf, i, a) == Some(j) && ManyAt(buf, j, b, a, n - 1) == Some(end)
    ensures ManyAt(buf, i, a, b, n) == Some(end)
  {
  }

  lemma {:induction false} FieldsStep(buf: Bytes, i: nat, t: byte, j: nat, end: nat)
    requires i + 3 <= j <= |buf| && buf[i] == t != STOP
    requires SkipAt(buf, i + 3, t) == Some(j) && FieldsAt(buf, j) == Some(end)
    ensures FieldsAt(buf, i) == Some(end)
  {
  }

  lemma {:induction false} FixedAt(buf: Bytes, i: nat, t: byte, raw: Bytes)
    requires FixedSize(t) == Some(|raw|) && At(buf, i, raw)
    ensures SkipAt(buf, i, t) == Some(i + |raw|)
  {
  }

  /** Skipping passes over exactly one well-formed value, wherever in the buffer it stands. */
  lemma {:induction false} SkipsValAt(buf: Bytes, i: nat, v: Val)
    requires WfVal(v) && At(buf, i, EncVal(v))
    ensures SkipAt(buf, i, TypeOf(v)) == Some(i + |EncVal(v)|)
    decreases v, 1
  {
    match v
    case Fixed(t, raw) => FixedAt(buf, i, t, raw);
    case Str(text) => StrAt(buf, i, text);
    case Strct(fields) => SkipsFieldsAt(buf, i, fields);
    case Coll(_, _, _) => SkipsCollAt(buf, i, v);
    case Dict(_, _, _) => SkipsDictAt(buf, i, v);
  }

  lemma {:induction false} SkipsCollAt(buf: Bytes, i: nat, v: Val)
    requires v.Coll? && WfVal(v) && At(buf, i, EncVal(v))
    ensures SkipAt(buf, i, v.kind) == Some(i + |EncVal(v)|)
    decreases v, 0
  {
    CollAt(buf, i, v.kind, v.elem, Count(v.items), EncVals(v.items, v.elem, v.elem));
    SkipsValsAt(buf, i + 5, v.items, v.elem, v.elem);
  }

  lemma {:induction false} SkipsDictAt(buf: Bytes, i: nat, v: Val)
    requires v.Dict? && WfVal(v) && At(buf, i, EncVal(v))
    ensures SkipAt(buf, i, MAP) == Some(i + |EncVal(v)|)
    decreases v, 0
  {
    DictAt(buf, i, v.key, v.elem, Count(v.items) / 2, EncVals(v.items, v.key, v.elem));
    SkipsValsAt(buf, i + 6, v.items, v.key, v.elem);
  }

  lemma {:induction false} SkipsValsAt(buf: Bytes, i: nat, vs: Vals, a: byte, b: byte)
    requires WfVals(vs, a, b) && At(buf, i, EncVals(vs, a, b))
    ensures ManyAt(buf, i, a, b, Count(vs)) == Some(i + |EncVals(vs, a, b)|)
    decreases vs, 0
  {
    match vs
    case Nil =>
    case Cons(head, tail) =>
      var j, end := i + |EncVal(head)|, i + |EncVals(vs, a, b)|;
      AtParts(buf, i, EncVal(head), EncVals(tail, b, a));
      SkipsValAt(buf, i, head);
      SkipsValsAt(buf, j, tail, b, a);
      ManyStep(buf, i, a, b, Count(vs), j, end);
  }

  lemma {:induction false} SkipsFieldsAt(buf: Bytes, i: nat, fs: Fields)
    requires WfFields(fs) && At(buf, i, EncFields(fs))
    ensures FieldsAt(buf, i) == Some(i + |EncFields(fs)|)
    decreases fs, 0
  {
    match fs
    case End => FirstAt(buf, i, [STOP]);
    case Field(id, v, more) =>
      var j, end := i + 3 + |EncVal(v)|, i + |EncFields(fs)|;
      TypesAreNotStop(v);
      FieldAt(buf, i, id, TypeOf(v), EncVal(v), EncFields(more));
      SkipsValAt(buf, i + 3, v);
      SkipsFieldsAt(buf, j, more);
      FieldsStep(buf, i, TypeOf(v), j, end);
  }

  lemma {:induction false} TypesAreNotStop(v: Val)
    requires WfVal(v)
    ensures TypeOf(v) != STOP
  {
  }

  /** Skip passes over exactly one well-formed value, whatever follows. */
  lemma {:induction false} SkipsVal(v: Val, rest: Bytes)
    requires WfVal(v)
    ensures Skip(EncVal(v) + rest, TypeOf(v)) == Some(|EncVal(v)|)
  {
    SkipsValAt(EncVal(v) + rest, 0, v);
  }

  lemma {:induction false} FieldFront(id: int, v: Val, fs: Fields, rest: Bytes)
    requires WfFields(Field(id, v, fs))
    ensures var buf := EncFields(Field(id, v, fs)) + rest;
      && |buf| >= 3 + |EncVal(v)| && buf[0] == TypeOf(v) != STOP && DecI16(buf[1], buf[2]) == id
      && buf[3..] == EncVal(v) + (EncFields(fs) + rest)
      && buf[3 + |EncVal(v)|..] == EncFields(fs) + rest
    ensures |EncFields(Field(id, v, fs))| == 3 + |EncVal(v)| + |EncFields(fs)|
  {
    var buf := EncFields(Field(id, v, fs)) + rest;
    I16RoundTrip(id);
    assert buf == [TypeOf(v)] + EncI16(id) + (EncVal(v) + (EncFields(fs) + rest));
    assert buf[3..][|EncVal(v)|..] == buf[3 + |EncVal(v)|..];
  }
}
