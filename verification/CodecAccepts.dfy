/** The readers accept nothing but encodings: whatever they read is the encoding of some well-formed
    struct, at the front of the buffer and to the byte. */
module CodecAccepts {
  import opened Types
  import opened Thrift
  import opened RequestCodec

  // ---- integers, backwards -----------------------------------------------------------------

  lemma {:induction false} I16Back(a: byte, b: byte)
    ensures -0x8000 <= DecI16(a, b) < 0x8000 && EncI16(DecI16(a, b)) == [a, b]
  {
    var n := DecI16(a, b);
    var u := if n < 0 then n + 0x1_0000 else n;
    assert u == a as int * 256 + b as int;
    assert u / 256 == a as int && u % 256 == b as int;
  }

  lemma {:induction false} I32Back(a: byte, b: byte, c: byte, d: byte)
    requires DecI32([a, b, c, d]) >= 0
    ensures DecI32([a, b, c, d]) < LIMIT && EncI32(DecI32([a, b, c, d])) == [a, b, c, d]
  {
    var n := DecI32([a, b, c, d]);
    assert n == ((a as int * 256 + b as int) * 256 + c as int) * 256 + d as int;
    assert n % 256 == d as int && n / 0x100 == (a as int * 256 + b as int) * 256 + c as int;
    assert n / 0x100 % 256 == c as int && n / 0x1_0000 == a as int * 256 + b as int;
    assert n / 0x1_0000 % 256 == b as int && n / 0x100_0000 == a as int;
  }

  lemma {:induction false} Int32Back(buf: Bytes, i: nat)
    requires i + 4 <= |buf| && Int32At(buf, i) >= 0
    ensures Int32At(buf, i) < LIMIT && EncI32(Int32At(buf, i)) == buf[i..i + 4]
  {
    I32Back(buf[i], buf[i + 1], buf[i + 2], buf[i + 3]);
    assert buf[i..i + 4] == [buf[i], buf[i + 1], buf[i + 2], buf[i + 3]];
  }

  // ---- values ------------------------------------------------------------------------------

  lemma {:induction false} FixedFound(buf: Bytes, i: nat, t: byte, j: nat) returns (v: Val)
    requires i <= |buf| && SkipAt(buf, i, t) == Some(j) && (FixedSize(t).Some? || t == STRING)
    ensures WfVal(v) && TypeOf(v) == t && EncVal(v) == buf[i..j]
  {
    if FixedSize(t).Some? {
      v := Fixed(t, buf[i..j]);
    } else {
      Int32Back(buf, i);
      v := Str(buf[i + 4..j]);
      assert EncVal(v) == buf[i..i + 4] + buf[i + 4..j];
    }
  }

  lemma {:induction false} CollFound(buf: Bytes, i: nat, kind: byte, j: nat, items: Vals) returns (v: Val)
    requires i + 5 <= j <= |buf| && (kind == SET || kind == LIST) && Int32At(buf, i + 1) == Count(items)
    requires WfVals(items, buf[i], buf[i]) && EncVals(items, buf[i], buf[i]) == buf[i + 5..j]
    ensures WfVal(v) && TypeOf(v) == kind && EncVal(v) == buf[i..j]
  {
    Int32Back(buf, i + 1);
    v := Coll(kind, buf[i], items);
    assert [buf[i]] + buf[i + 1..i + 5] + buf[i + 5..j] == buf[i..j];
  }

  lemma {:induction false} DictFound(buf: Bytes, i: nat, j: nat, items: Vals) returns (v: Val)
    requires i + 6 <= j <= |buf| && Int32At(buf, i + 2) >= 0 && 2 * Int32At(buf, i + 2) == Count(items)
    requires WfVals(items, buf[i], buf[i + 1]) && EncVals(items, buf[i], buf[i + 1]) == buf[i + 6..j]
    ensures WfVal(v) && TypeOf(v) == MAP && EncVal(v) == buf[i..j]
  {
    Int32Back(buf, i + 2);
    v := Dict(buf[i], buf[i + 1], items);
    assert [buf[i], buf[i + 1]] + buf[i + 2..i + 6] + buf[i + 6..j] == buf[i..j];
  }

  /** What skip passes over is the encoding of a well-formed value of that type. */
  lemma {:induction false} ValFound(buf: Bytes, i: nat, t: byte, j: nat) returns (v: Val)
    requires i <= |buf| && SkipAt(buf, i, t) == Some(j)
    ensures WfVal(v) && TypeOf(v) == t && EncVal(v) == buf[i..j]
    decreases |buf| - i, 1, 0
  {
    if FixedSize(t).Some? || t == STRING {
      v := FixedFound(buf, i, t, j);
    } else if t == STRUCT {
      var fs := FieldsFound(buf, i, j);
      v := Strct(fs);
    } else if t == MAP {
      var items := ValsFound(buf, i + 6, buf[i], buf[i + 1], 2 * Int32At(buf, i + 2), j);
      v := DictFound(buf, i, j, items);
    } else {
      var items := ValsFound(buf, i + 5, buf[i], buf[i], Int32At(buf, i + 1), j);
      v := CollFound(buf, i, t, j, items);
    }
  }

  lemma {:induction false} ValsFound(buf: Bytes, i: nat, a: byte, b: byte, n: nat, j: nat) returns (vs: Vals)
    requires i <= |buf| && ManyAt(buf, i, a, b, n) == Some(j)
    ensures WfVals(vs, a, b) && Count(vs) == n && EncVals(vs, a, b) == buf[i..j]
    decreases |buf| - i, 2, n
  {
    if n == 0 {
      vs := Nil;
    } else {
      var k := SkipAt(buf, i, a).value;
      var head := ValFound(buf, i, a, k);
      var tail := ValsFound(buf, k, b, a, n - 1, j);
      vs := Cons(head, tail);
      assert buf[i..j] == buf[i..k] + buf[k..j];
    }
  }

  lemma {:induction false} FieldsFound(buf: Bytes, i: nat, j: nat) returns (fs: Fields)
    requires i <= |buf| && FieldsAt(buf, i) == Some(j)
    ensures WfFields(fs) && EncFields(fs) == buf[i..j]
    decreases |buf| - i, 0, 0
  {
    if buf[i] == STOP {
      fs := End;
    } else {
      var k := SkipAt(buf, i + 3, buf[i]).value;
      var v := ValFound(buf, i + 3, buf[i], k);
      var more := FieldsFound(buf, k, j);
      fs := OneField(buf, i, k, j, v, more);
    }
  }

  lemma {:induction false} OneField(buf: Bytes, i: nat, k: nat, j: nat, v: Val, more: Fields) returns (fs: Fields)
    requires i + 3 <= k <= j <= |buf| && WfVal(v) && TypeOf(v) == buf[i] && EncVal(v) == buf[i + 3..k]
    requires WfFields(more) && EncFields(more) == buf[k..j]
    ensures fs == Field(DecI16(buf[i + 1], buf[i + 2]), v, more) && WfFields(fs) && EncFields(fs) == buf[i..j]
  {
    I16Back(buf[i + 1], buf[i + 2]);
    fs := Field(DecI16(buf[i + 1], buf[i + 2]), v, more);
    assert [buf[i]] + [buf[i + 1], buf[i + 2]] + buf[i + 3..k] + buf[k..j] == buf[i..j];
  }

  // ---- the request -------------------------------------------------------------------------

  lemma {:induction false} FieldRead(buf: Bytes, t: byte, id: int, p: Req, k: nat, q: Req) returns (v: Val)
    requires ReadField(buf, t, id, p) == Got(k, q) && k <= |buf|
    ensures WfVal(v) && TypeOf(v) == t && EncVal(v) == buf[..k] && Given(id, v, p) == q
  {
    if IsSlot(id, t) {
      StringFound(buf);
      v := Str(buf[4..k]);
      assert buf[..k] == buf[..4] + buf[4..k];
    } else {
      v := ValFound(buf, 0, t, k);
      assert buf[0..k] == buf[..k];
    }
  }

  lemma {:induction false} StringFound(buf: Bytes)
    requires ReadString(buf).GotStr?
    ensures |buf| >= 4 && 0 <= DecI32(buf) < LIMIT && EncI32(DecI32(buf)) == buf[..4]
    ensures ReadString(buf) == GotStr(4 + DecI32(buf), buf[4..4 + DecI32(buf)])
  {
    assert DecI32(buf) == DecI32([buf[0], buf[1], buf[2], buf[3]]);
    I32Back(buf[0], buf[1], buf[2], buf[3]);
    assert buf[..4] == [buf[0], buf[1], buf[2], buf[3]];
  }

  lemma {:induction false} ReadOpens(buf: Bytes, p: Req, n: nat, q: Req, f: ReqOut)
    requires Read(buf, p) == Got(n, q) && buf[0] != STOP
    requires |buf| >= 3 ==> f == ReadField(buf[3..], buf[0], DecI16(buf[1], buf[2]), p)
    ensures |buf| >= 3 && f.Got? && 3 + f.n <= n <= |buf| && Read(buf[3 + f.n..], f.p) == Got(n - 3 - f.n, q)
  {
  }

  /** A struct whose first field ends at offset k. */
  lemma {:induction false} FirstField(buf: Bytes, k: nat, n: nat, v: Val, more: Fields) returns (fs: Fields)
    requires 3 <= k <= n <= |buf| && WfVal(v) && TypeOf(v) == buf[0] && EncVal(v) == buf[3..][..k - 3]
    requires WfFields(more) && EncFields(more) == buf[k..][..n - k]
    ensures fs == Field(DecI16(buf[1], buf[2]), v, more) && WfFields(fs) && EncFields(fs) == buf[..n]
  {
    assert buf[3..][..k - 3] == buf[0 + 3..k] && buf[k..][..n - k] == buf[k..n] && buf[0..n] == buf[..n];
    fs := OneField(buf, 0, k, n, v, more);
  }

  /** What the reader reads is the encoding of a well-formed struct, and the request is what its fields
      give. */
  lemma {:induction false} StructRead(buf: Bytes, p: Req, n: nat, q: Req) returns (fs: Fields)
    requires Read(buf, p) == Got(n, q)
    ensures n <= |buf| && WfFields(fs) && EncFields(fs) == buf[..n] && Fold(fs, p) == q
    decreases |buf|
  {
    if buf[0] == STOP {
      fs := End;
    } else {
      var f := if |buf| >= 3 then ReadField(buf[3..], buf[0], DecI16(buf[1], buf[2]), p) else Bad(0, p);
      ReadOpens(buf, p, n, q, f);
      var v := FieldRead(buf[3..], buf[0], DecI16(buf[1], buf[2]), p, f.n, f.p);
      var more := StructRead(buf[3 + f.n..], f.p, n - 3 - f.n, q);
      fs := FirstField(buf, 3 + f.n, n, v, more);
    }
  }

  lemma {:induction false} EncodingIsRead(buf: Bytes, p: Req, fs: Fields)
    requires WfFields(fs) && EncFields(fs) <= buf
    ensures Read(buf, p).Got?
  {
    ReadsStruct(fs, buf[|EncFields(fs)|..], p);
    assert EncFields(fs) + buf[|EncFields(fs)|..] == buf;
  }

  /** The reader succeeds if and only if the buffer begins with the encoding of a well-formed struct. */
  lemma AcceptsExactly(buf: Bytes, p: Req)
    ensures Read(buf, p).Got? <==> exists fs :: WfFields(fs) && EncFields(fs) <= buf
  {
    if Read(buf, p).Got? {
      var fs := StructRead(buf, p, Read(buf, p).n, Read(buf, p).p);
    }
    if fs :| WfFields(fs) && EncFields(fs) <= buf { EncodingIsRead(buf, p, fs); }
  }

  // ---- the arguments -----------------------------------------------------------------------

  lemma {:induction false} ArgsFieldRead(
    buf: Bytes, t: byte, id: int, a: Option<Req>, k: nat, b: Option<Req>) returns (v: Val)
    requires ReadArgsField(buf, t, id, a) == GotArgs(k, b) && k <= |buf|
    ensures WfVal(v) && TypeOf(v) == t && EncVal(v) == buf[..k] && GivenArgs(id, v, a) == b
  {
    if id == 1 && t == STRUCT {
      var fs := StructRead(buf, Blank, k, b.value);
      v := Strct(fs);
    } else {
      v := ValFound(buf, 0, t, k);
      assert buf[0..k] == buf[..k];
    }
  }

  lemma {:induction false} ArgsOpen(buf: Bytes, a: Option<Req>, n: nat, b: Option<Req>, f: ArgsOut)
    requires ReadArgs(buf, a) == GotArgs(n, b) && buf[0] != STOP
    requires |buf| >= 3 ==> f == ReadArgsField(buf[3..], buf[0], DecI16(buf[1], buf[2]), a)
    ensures |buf| >= 3 && f.GotArgs? && 3 + f.n <= n && 3 + f.n <= |buf|
    ensures ReadArgs(buf[3 + f.n..], f.a) == GotArgs(n - 3 - f.n, b)
  {
  }

  lemma {:induction false} ArgsRead(buf: Bytes, a: Option<Req>, n: nat, b: Option<Req>) returns (fs: Fields)
    requires ReadArgs(buf, a) == GotArgs(n, b)
    ensures n <= |buf| && WfFields(fs) && EncFields(fs) == buf[..n] && FoldArgs(fs, a) == b
    decreases |buf|
  {
    if buf[0] == STOP {
      fs := End;
    } else {
      var f := if |buf| >= 3 then ReadArgsField(buf[3..], buf[0], DecI16(buf[1], buf[2]), a) else BadArgs(0, a);
      ArgsOpen(buf, a, n, b, f);
      var v := ArgsFieldRead(buf[3..], buf[0], DecI16(buf[1], buf[2]), a, f.n, f.a);
      var more := ArgsRead(buf[3 + f.n..], f.a, n - 3 - f.n, b);
      fs := FirstField(buf, 3 + f.n, n, v, more);
    }
  }

  lemma {:induction false} EncodingIsReadAsArgs(buf: Bytes, a: Option<Req>, fs: Fields)
    requires WfFields(fs) && EncFields(fs) <= buf
    ensures ReadArgs(buf, a).GotArgs?
  {
    ReadsArgs(fs, buf[|EncFields(fs)|..], a);
    assert EncFields(fs) + buf[|EncFields(fs)|..] == buf;
  }

  /** The same for the arguments. */
  lemma ArgsAcceptExactly(buf: Bytes, a: Option<Req>)
    ensures ReadArgs(buf, a).GotArgs? <==> exists fs :: WfFields(fs) && EncFields(fs) <= buf
  {
    if ReadArgs(buf, a).GotArgs? {
      var fs := ArgsRead(buf, a, ReadArgs(buf, a).n, ReadArgs(buf, a).a);
    }
    if fs :| WfFields(fs) && EncFields(fs) <= buf { EncodingIsReadAsArgs(buf, a, fs); }
  }
}
