/** The generated codec of SendMsgByTgidReq and of the argument struct that carries it. */
module RequestCodec {
  import opened Types
  import opened Thrift

  datatype Req = Req(uid: Bytes, tgid: Bytes, msg: Bytes)

  const Blank := Req([], [], [])

  predicate Fits(p: Req) {
    |p.uid| < LIMIT && |p.tgid| < LIMIT && |p.msg| < LIMIT
  }

  // ---- writing -----------------------------------------------------------------------------

  function StringField(id: int, s: Bytes): Bytes
    requires -0x8000 <= id < 0x8000 && |s| < LIMIT
  {
    [STRING] + EncI16(id) + EncI32(|s|) + s
  }

  function Written(p: Req): Bytes
    requires Fits(p)
  {
    StringField(1, p.uid) + StringField(2, p.tgid) + StringField(3, p.msg) + [STOP]
  }

  function FieldLength(s: Bytes): nat {
    3 + 4 + |s|
  }

  function BLength(p: Req): nat {
    FieldLength(p.uid) + FieldLength(p.tgid) + FieldLength(p.msg) + 1
  }

  /** BLength is the length of what is written. */
  lemma {:induction false} LengthIsRight(p: Req)
    requires Fits(p)
    ensures |Written(p)| == BLength(p)
  {
  }

  // ---- reading -----------------------------------------------------------------------------

  /** What a read yields: the bytes consumed and a string, a request, or the arguments; on a fault, how
      far the reader had got and what it had assigned. */
  datatype StrOut = NoStr | GotStr(n: nat, s: Bytes)
  datatype ReqOut = Bad(n: nat, p: Req) | Got(n: nat, p: Req)
  datatype ArgsOut = BadArgs(n: nat, a: Option<Req>) | GotArgs(n: nat, a: Option<Req>)

  function ReadString(buf: Bytes): (r: StrOut)
    ensures r.GotStr? ==> r.n <= |buf|
  {
    if |buf| < 4 || DecI32(buf) < 0 || 4 + DecI32(buf) > |buf| then NoStr
    else GotStr(4 + DecI32(buf), buf[4..4 + DecI32(buf)])
  }

  predicate IsSlot(id: int, t: byte) {
    1 <= id <= 3 && t == STRING
  }

  function Assign(p: Req, id: int, s: Bytes): Req {
    if id == 1 then p.(uid := s) else if id == 2 then p.(tgid := s) else p.(msg := s)
  }

  /** How far one field reaches behind its 3-byte header, and the request after it. */
  function ReadField(buf: Bytes, t: byte, id: int, p: Req): (r: ReqOut)
    ensures r.Got? ==> r.n <= |buf|
    ensures r.Bad? ==> r == Bad(0, p)
  {
    if IsSlot(id, t) then
      var r := ReadString(buf);
      if r.NoStr? then Bad(0, p) else Got(r.n, Assign(p, id, r.s))
    else
      var r := Skip(buf, t);
      if r.None? then Bad(0, p) else Got(r.value, p)
  }

  /** FastRead: the bytes consumed and the request; on a malformed buffer, the request as far as it was
      read. */
  function Read(buf: Bytes, p: Req): (r: ReqOut)
    ensures r.Got? ==> r.n <= |buf|
    decreases |buf|
  {
    if |buf| < 1 then Bad(0, p)
    else if buf[0] == STOP then Got(1, p)
    else if |buf| < 3 then Bad(0, p)
    else
      var f := ReadField(buf[3..], buf[0], DecI16(buf[1], buf[2]), p);
      if f.Bad? then Bad(3 + f.n, f.p) else Shift(3 + f.n, Read(buf[3 + f.n..], f.p))
  }

  function Shift(k: nat, r: ReqOut): ReqOut {
    r.(n := k + r.n)
  }

  /** Reading from offset n on, with all bytes counted. */
  function ReadAt(buf: Bytes, n: nat, p: Req): ReqOut
    requires n <= |buf|
  {
    Shift(n, Read(buf[n..], p))
  }

  lemma {:induction false} FromStart(buf: Bytes, p: Req)
    ensures ReadAt(buf, 0, p) == Read(buf, p)
  {
    assert buf[0..] == buf;
  }

  /** One more field read at offset n. */
  lemma {:induction false} Advance(buf: Bytes, n: nat, p: Req, k: nat, q: Req)
    requires n + 3 + k <= |buf| && buf[n] != STOP
    requires ReadField(buf[n + 3..], buf[n], DecI16(buf[n + 1], buf[n + 2]), p) == Got(k, q)
    ensures ReadAt(buf, n, p) == ReadAt(buf, n + 3 + k, q)
  {
    var here := buf[n..];
    assert here[3..] == buf[n + 3..] && here[3 + k..] == buf[n + 3 + k..];
  }

  /** No readable field at offset n. */
  lemma {:induction false} Stuck(buf: Bytes, n: nat, p: Req)
    requires n < |buf| && buf[n] != STOP
    requires n + 3 <= |buf| ==> ReadField(buf[n + 3..], buf[n], DecI16(buf[n + 1], buf[n + 2]), p) == Bad(0, p)
    ensures ReadAt(buf, n, p) == Bad(if n + 3 <= |buf| then n + 3 else n, p)
  {
    if n + 3 <= |buf| { assert buf[n..][3..] == buf[n + 3..]; }
  }

  /** The struct, or the buffer, ends at offset n. */
  lemma {:induction false} AtEnd(buf: Bytes, n: nat, p: Req)
    requires n <= |buf| && (n < |buf| ==> buf[n] == STOP)
    ensures ReadAt(buf, n, p) == if n < |buf| then Got(n + 1, p) else Bad(n, p)
  {
  }

  class SendMsgByTgidReq {
    var uid: Bytes
    var tgid: Bytes
    var msg: Bytes

    constructor ()
      ensures Val() == Blank
    {
      uid, tgid, msg := [], [], [];
    }

    function Val(): Req
      reads this
    {
      Req(uid, tgid, msg)
    }

    method SetSlot(id: int, s: Bytes)
      modifies this
      ensures Val() == Assign(old(Val()), id, s)
    {
      if id == 1 { uid := s; } else if id == 2 { tgid := s; } else { msg := s; }
    }

    /** The value of one field: into its slot, or skipped. */
    method ReadOne(body: Bytes, t: byte, id: int) returns (k: nat, ok: bool)
      modifies this
      ensures ok <==> ReadField(body, t, id, old(Val())).Got?
      ensures ok ==> ReadField(body, t, id, old(Val())) == Got(k, Val())
      ensures !ok ==> Val() == old(Val())
    {
      k, ok := 0, false;
      if IsSlot(id, t) {
        var r := ReadString(body);
        if r.GotStr? {
          SetSlot(id, r.s);
          k, ok := r.n, true;
        }
      } else {
        var r := Skip(body, t);
        if r.Some? {
          k, ok := r.value, true;
        }
      }
    }

    /** One field, with its header, at offset n. */
    method ReadNext(buf: Bytes, n: nat) returns (n': nat, ok: bool)
      requires n < |buf| && buf[n] != STOP
      modifies this
      ensures n <= n' <= |buf| && (ok ==> n < n')
      ensures ok ==> ReadAt(buf, n, old(Val())) == ReadAt(buf, n', Val())
      ensures !ok ==> ReadAt(buf, n, old(Val())) == Bad(n', Val())
    {
      n', ok := n, false;
      ghost var p := Val();
      if n + 3 > |buf| {
        Stuck(buf, n, p);
        return;
      }
      var k;
      k, ok := ReadOne(buf[n + 3..], buf[n], DecI16(buf[n + 1], buf[n + 2]));
      if ok {
        Advance(buf, n, p, k, Val());
        n' := n + 3 + k;
      } else {
        Stuck(buf, n, p);
        n' := n + 3;
      }
    }

    /** On a malformed buffer the fields read so far stay assigned. */
    method FastRead(buf: Bytes) returns (n: nat, ok: bool)
      modifies this
      ensures Read(buf, old(Val())) == if ok then Got(n, Val()) else Bad(n, Val())
    {
      n, ok := 0, true;
      FromStart(buf, Val());
      while ok && n < |buf| && buf[n] != STOP
        invariant n <= |buf|
        invariant Read(buf, old(Val())) == if ok then ReadAt(buf, n, Val()) else Bad(n, Val())
        decreases ok, |buf| - n
      {
        n, ok := ReadNext(buf, n);
      }
      if ok {
        AtEnd(buf, n, Val());
        ok := n < |buf|;
        n := if ok then n + 1 else n;
      }
    }

    /** Fills the buffer from offset `at` on and touches nothing else. */
    method FastWriteNocopy(buf: array<byte>, at: nat) returns (n: nat)
      requires Fits(Val()) && at + BLength(Val()) <= buf.Length
      modifies buf
      ensures n == BLength(Val()) && buf[..] == Overwritten(old(buf[..]), at, Written(Val()))
    {
      LengthIsRight(Val());
      n := WriteAll(buf, at, StringField(1, uid), StringField(2, tgid), StringField(3, msg), [STOP]);
    }
  }

  /** Four pieces, one behind the other. */
  method WriteAll(buf: array<byte>, at: nat, a: Bytes, b: Bytes, c: Bytes, d: Bytes) returns (n: nat)
    requires at + |a + b + c + d| <= buf.Length
    modifies buf
    ensures n == |a + b + c + d| && buf[..] == Overwritten(old(buf[..]), at, a + b + c + d)
  {
    ghost var start := buf[..];
    Put(buf, at, a);
    n := Append(buf, at, |a|, b, start, a);
    n := Append(buf, at, n, c, start, a + b);
    n := Append(buf, at, n, d, start, a + b + c);
  }

  /** More bytes behind the n bytes already written from offset `at` on. */
  method Append(
    buf: array<byte>, at: nat, n: nat, bytes: Bytes, ghost start: Bytes, ghost done: Bytes) returns (n': nat)
    requires |start| == buf.Length && at + |done| + |bytes| <= buf.Length && n == |done|
    requires buf[..] == Overwritten(start, at, done)
    modifies buf
    ensures n' == |done + bytes| && buf[..] == Overwritten(start, at, done + bytes)
  {
    Put(buf, at + n, bytes);
    OverwrittenTwice(start, at, done, bytes);
    n' := n + |bytes|;
  }

  /** The buffer with the given bytes from offset `at` on. */
  function Overwritten(buf: Bytes, at: nat, bytes: Bytes): (r: Bytes)
    requires at + |bytes| <= |buf|
    ensures |r| == |buf|
  {
    buf[..at] + bytes + buf[at + |bytes|..]
  }

  lemma {:induction false} OverwrittenTwice(buf: Bytes, at: nat, a: Bytes, b: Bytes)
    requires at + |a| + |b| <= |buf|
    ensures Overwritten(Overwritten(buf, at, a), at + |a|, b) == Overwritten(buf, at, a + b)
  {
  }

  method Put(buf: array<byte>, at: nat, bytes: Bytes)
    requires at + |bytes| <= buf.Length
    modifies buf
    ensures buf[..] == Overwritten(old(buf[..]), at, bytes)
  {
    for i := 0 to |bytes|
      invariant forall j :: 0 <= j < buf.Length ==> buf[j] == if at <= j < at + i then bytes[j - at] else old(buf[j])
    {
      buf[at + i] := bytes[i];
    }
  }

  // ---- what reading means ------------------------------------------------------------------

  /** The request after a struct: the last string of each slot wins, everything else is ignored. */
  function Fold(fs: Fields, p: Req): Req {
    match fs
    case End => p
    case Field(id, v, rest) => Fold(rest, Given(id, v, p))
  }

  lemma {:induction false} ReadsString(s: Bytes, rest: Bytes)
    requires |s| < LIMIT
    ensures ReadString(EncI32(|s|) + s + rest) == GotStr(4 + |s|, s)
  {
    var buf := EncI32(|s|) + s + rest;
    assert buf == EncI32(|s|) + (s + rest);
    I32RoundTrip(|s|, s + rest);
    assert buf[4..4 + |s|] == s;
  }

  lemma {:induction false} ReadsField(id: int, v: Val, more: Bytes, p: Req)
    requires WfVal(v)
    ensures ReadField(EncVal(v) + more, TypeOf(v), id, p) == Got(|EncVal(v)|, Given(id, v, p))
  {
    SkipsVal(v, more);
    if v.Str? { ReadsString(v.text, more); }
  }

  lemma {:induction false} ReadStep(
    buf: Bytes, body: Bytes, tail: Bytes, t: byte, id: int, p: Req, k: nat, q: Req, n: nat, r: Req)
    requires |buf| >= 3 + k && buf[0] == t != STOP && DecI16(buf[1], buf[2]) == id
    requires buf[3..] == body && buf[3 + k..] == tail
    requires ReadField(body, t, id, p) == Got(k, q) && Read(tail, q) == Got(n, r)
    ensures Read(buf, p) == Got(3 + k + n, r)
  {
  }

  function Given(id: int, v: Val, p: Req): Req {
    if IsSlot(id, TypeOf(v)) && v.Str? then Assign(p, id, v.text) else p
  }

  lemma {:induction false} StructStep(id: int, v: Val, more: Fields, rest: Bytes, p: Req, q: Req, r: Req)
    requires WfFields(Field(id, v, more))
    requires ReadField(EncVal(v) + (EncFields(more) + rest), TypeOf(v), id, p) == Got(|EncVal(v)|, q)
    requires Read(EncFields(more) + rest, q) == Got(|EncFields(more)|, r)
    ensures Read(EncFields(Field(id, v, more)) + rest, p) == Got(|EncFields(Field(id, v, more))|, r)
  {
    FieldFront(id, v, more, rest);
    var ev, tail := EncVal(v), EncFields(more) + rest;
    ReadStep(EncFields(Field(id, v, more)) + rest, ev + tail, tail, TypeOf(v), id, p, |ev|, q, |EncFields(more)|, r);
  }

  /** Every well-formed struct, whatever its fields and whatever follows it, is read to its end. */
  lemma {:induction false} ReadsStruct(fs: Fields, rest: Bytes, p: Req)
    requires WfFields(fs)
    ensures Read(EncFields(fs) + rest, p) == Got(|EncFields(fs)|, Fold(fs, p))
  {
    match fs
    case End =>
    case Field(id, v, more) =>
      var q := Given(id, v, p);
      ReadsStruct(more, rest, q);
      ReadsField(id, v, EncFields(more) + rest, p);
      StructStep(id, v, more, rest, p, q, Fold(more, q));
  }

  function FieldsOf(p: Req): Fields {
    Field(1, Str(p.uid), Field(2, Str(p.tgid), Field(3, Str(p.msg), End)))
  }

  lemma {:induction false} StringFieldIs(id: int, s: Bytes, more: Fields)
    requires -0x8000 <= id < 0x8000 && |s| < LIMIT && WfFields(more)
    ensures WfFields(Field(id, Str(s), more)) &&
      EncFields(Field(id, Str(s), more)) == StringField(id, s) + EncFields(more)
  {
  }

  lemma {:induction false} FoldFields(p: Req, q: Req)
    ensures Fold(FieldsOf(p), q) == p
  {
    var f3 := Field(3, Str(p.msg), End);
    var f2 := Field(2, Str(p.tgid), f3);
    var q1 := q.(uid := p.uid);
    var q2 := q1.(tgid := p.tgid);
    assert Fold(FieldsOf(p), q) == Fold(f2, q1);
    assert Fold(f2, q1) == Fold(f3, q2);
    assert Fold(f3, q2) == Fold(End, q2.(msg := p.msg));
  }

  lemma {:induction false} WrittenIsStruct(p: Req)
    requires Fits(p)
    ensures WfFields(FieldsOf(p)) && Written(p) == EncFields(FieldsOf(p))
  {
    var f3 := Field(3, Str(p.msg), End);
    var f2 := Field(2, Str(p.tgid), f3);
    StringFieldIs(3, p.msg, End);
    StringFieldIs(2, p.tgid, f3);
    StringFieldIs(1, p.uid, f2);
    assert EncFields(FieldsOf(p)) ==
      StringField(1, p.uid) + (StringField(2, p.tgid) + (StringField(3, p.msg) + [STOP]));
  }

  /** Reading inverts writing: exactly BLength bytes are consumed, trailing bytes are left alone, and
      it does not matter what the request held before. */
  lemma {:induction false} RoundTrip(p: Req, rest: Bytes, before: Req)
    requires Fits(p)
    ensures Read(Written(p) + rest, before) == Got(BLength(p), p)
  {
    WrittenIsStruct(p);
    LengthIsRight(p);
    FoldFields(p, before);
    ReadsStruct(FieldsOf(p), rest, before);
  }

  // ---- unknown and mistyped fields ---------------------------------------------------------

  function Then(a: Fields, b: Fields): Fields {
    match a
    case End => b
    case Field(id, v, rest) => Field(id, v, Then(rest, b))
  }

  lemma {:induction false} FoldThen(a: Fields, b: Fields, p: Req)
    ensures Fold(Then(a, b), p) == Fold(b, Fold(a, p))
    ensures WfFields(a) && WfFields(b) ==> WfFields(Then(a, b))
  {
    match a
    case End =>
    case Field(id, v, rest) => FoldThen(rest, b, Given(id, v, p));
  }

  /** A well-formed field of unknown id or other type, inserted anywhere, does not change what is read. */
  lemma {:induction false} InsertedFieldIsIgnored(a: Fields, b: Fields, id: int, v: Val, rest: Bytes, p: Req)
    requires WfFields(a) && WfFields(b) && WfFields(Field(id, v, End)) && !IsSlot(id, TypeOf(v))
    ensures WfFields(Then(a, Field(id, v, b))) && WfFields(Then(a, b))
    ensures Read(EncFields(Then(a, Field(id, v, b))) + rest, p) ==
      Got(|EncFields(Then(a, Field(id, v, b)))|, Fold(Then(a, b), p))
    ensures Read(EncFields(Then(a, b)) + rest, p) == Got(|EncFields(Then(a, b))|, Fold(Then(a, b), p))
  {
    FoldThen(a, b, p);
    FoldThen(a, Field(id, v, b), p);
    ReadsStruct(Then(a, Field(id, v, b)), rest, p);
    ReadsStruct(Then(a, b), rest, p);
  }

  // ---- the argument struct -----------------------------------------------------------------

  /** ImRpcSendMsgToUserByTgidArgs: field 1 is the request; a nil request is written as an empty struct. */
  function WrittenArgs(a: Option<Req>): Bytes
    requires a.Some? ==> Fits(a.value)
  {
    [STRUCT] + EncI16(1) + (if a.Some? then Written(a.value) else [STOP]) + [STOP]
  }

  function ArgsLength(a: Option<Req>): nat {
    3 + (if a.Some? then BLength(a.value) else 1) + 1
  }

  function ReadArgsField(buf: Bytes, t: byte, id: int, a: Option<Req>): (r: ArgsOut)
    ensures r.GotArgs? ==> r.n <= |buf|
  {
    if id == 1 && t == STRUCT then
      var r := Read(buf, Blank);
      if r.Bad? then BadArgs(0, a) else GotArgs(r.n, Some(r.p))
    else
      var r := Skip(buf, t);
      if r.None? then BadArgs(0, a) else GotArgs(r.value, a)
  }

  function ReadArgs(buf: Bytes, a: Option<Req>): (r: ArgsOut)
    decreases |buf|
  {
    if |buf| < 1 then BadArgs(0, a)
    else if buf[0] == STOP then GotArgs(1, a)
    else if |buf| < 3 then BadArgs(0, a)
    else
      var f := ReadArgsField(buf[3..], buf[0], DecI16(buf[1], buf[2]), a);
      if f.BadArgs? then BadArgs(3 + f.n, f.a) else ShiftArgs(3 + f.n, ReadArgs(buf[3 + f.n..], f.a))
  }

  function ShiftArgs(k: nat, r: ArgsOut): ArgsOut {
    r.(n := k + r.n)
  }

  function ReadArgsAt(buf: Bytes, n: nat, a: Option<Req>): ArgsOut
    requires n <= |buf|
  {
    ShiftArgs(n, ReadArgs(buf[n..], a))
  }

  lemma {:induction false} ArgsFromStart(buf: Bytes, a: Option<Req>)
    ensures ReadArgsAt(buf, 0, a) == ReadArgs(buf, a)
  {
    assert buf[0..] == buf;
  }

  lemma {:induction false} ArgsAdvance(buf: Bytes, n: nat, a: Option<Req>, k: nat, b: Option<Req>)
    requires n + 3 + k <= |buf| && buf[n] != STOP
    requires ReadArgsField(buf[n + 3..], buf[n], DecI16(buf[n + 1], buf[n + 2]), a) == GotArgs(k, b)
    ensures ReadArgsAt(buf, n, a) == ReadArgsAt(buf, n + 3 + k, b)
  {
    var here := buf[n..];
    assert here[3..] == buf[n + 3..] && here[3 + k..] == buf[n + 3 + k..];
  }

  lemma {:induction false} ArgsStuck(buf: Bytes, n: nat, a: Option<Req>)
    requires n < |buf| && buf[n] != STOP
    requires n + 3 <= |buf| ==> ReadArgsField(buf[n + 3..], buf[n], DecI16(buf[n + 1], buf[n + 2]), a) == BadArgs(0, a)
    ensures ReadArgsAt(buf, n, a) == BadArgs(if n + 3 <= |buf| then n + 3 else n, a)
  {
    if n + 3 <= |buf| { assert buf[n..][3..] == buf[n + 3..]; }
  }

  lemma {:induction false} ArgsNext(buf: Bytes, n: nat, a: Option<Req>, k: nat, ok: bool, b: Option<Req>)
    requires n + 3 <= |buf| && buf[n] != STOP
    requires ReadArgsField(buf[n + 3..], buf[n], DecI16(buf[n + 1], buf[n + 2]), a) ==
      if ok then GotArgs(k, b) else BadArgs(0, b)
    ensures ok ==> n + 3 + k <= |buf| && ReadArgsAt(buf, n, a) == ReadArgsAt(buf, n + 3 + k, b)
    ensures !ok ==> ReadArgsAt(buf, n, a) == BadArgs(n + 3, b)
  {
    if ok { ArgsAdvance(buf, n, a, k, b); } else { ArgsStuck(buf, n, a); }
  }

  lemma {:induction false} ArgsAtEnd(buf: Bytes, n: nat, a: Option<Req>)
    requires n <= |buf| && (n < |buf| ==> buf[n] == STOP)
    ensures ReadArgsAt(buf, n, a) == if n < |buf| then GotArgs(n + 1, a) else BadArgs(n, a)
  {
  }

  class ImRpcSendMsgToUserByTgidArgs {
    var req: SendMsgByTgidReq?

    constructor ()
      ensures req == null
    {
      req := null;
    }

    function Val(): Option<Req>
      reads this, req
    {
      if req == null then None else Some(req.Val())
    }

    /** The value of one field: a new request in place of the one held, or skipped. */
    method ReadOne(body: Bytes, t: byte, id: int) returns (k: nat, ok: bool)
      modifies this
      ensures ReadArgsField(body, t, id, old(Val())) == if ok then GotArgs(k, Val()) else BadArgs(0, Val())
      ensures req == old(req) || fresh(req)
    {
      k, ok := 0, false;
      if id == 1 && t == STRUCT {
        var field := new SendMsgByTgidReq();
        k, ok := field.FastRead(body);
        if ok {
          req := field;
        }
      } else {
        var r := Skip(body, t);
        if r.Some? {
          k, ok := r.value, true;
        }
      }
    }

    method ReadNext(buf: Bytes, n: nat) returns (n': nat, ok: bool)
      requires n < |buf| && buf[n] != STOP
      modifies this
      ensures n <= n' <= |buf| && (ok ==> n < n')
      ensures ok ==> ReadArgsAt(buf, n, old(Val())) == ReadArgsAt(buf, n', Val())
      ensures !ok ==> ReadArgsAt(buf, n, old(Val())) == BadArgs(n', Val())
      ensures req == old(req) || fresh(req)
    {
      n', ok := n, false;
      ghost var a := Val();
      if n + 3 > |buf| {
        ArgsStuck(buf, n, a);
        return;
      }
      var k;
      k, ok := ReadOne(buf[n + 3..], buf[n], DecI16(buf[n + 1], buf[n + 2]));
      ArgsNext(buf, n, a, k, ok, Val());
      n' := if ok then n + 3 + k else n + 3;
    }

    method FastRead(buf: Bytes) returns (n: nat, ok: bool)
      modifies this
      ensures ReadArgs(buf, old(Val())) == if ok then GotArgs(n, Val()) else BadArgs(n, Val())
    {
      n, ok := 0, true;
      ArgsFromStart(buf, Val());
      while ok && n < |buf| && buf[n] != STOP
        invariant n <= |buf| && (req == old(req) || fresh(req))
        invariant ReadArgs(buf, old(Val())) == if ok then ReadArgsAt(buf, n, Val()) else BadArgs(n, Val())
        decreases ok, |buf| - n
      {
        n, ok := ReadNext(buf, n);
      }
      if ok {
        ArgsAtEnd(buf, n, Val());
        ok := n < |buf|;
        n := if ok then n + 1 else n;
      }
    }

    /** A nil request is written as an empty struct. */
    method FastWriteNocopy(buf: array<byte>) returns (n: nat)
      requires Val().Some? ==> Fits(Val().value)
      requires ArgsLength(Val()) <= buf.Length
      modifies buf
      ensures n == ArgsLength(Val()) == |WrittenArgs(Val())|
      ensures buf[..] == Overwritten(old(buf[..]), 0, WrittenArgs(Val()))
    {
      ghost var start := buf[..];
      var head := [STRUCT] + EncI16(1);
      Put(buf, 0, head);
      n := |head|;
      ghost var inner := [STOP];
      if req == null {
        n := Append(buf, 0, n, [STOP], start, head);
      } else {
        LengthIsRight(req.Val());
        inner := Written(req.Val());
        var k := req.FastWriteNocopy(buf, n);
        n := n + k;
        OverwrittenTwice(start, 0, head, inner);
      }
      n := Append(buf, 0, n, [STOP], start, head + inner);
    }
  }

  /** The last well-typed field 1 wins, everything else is ignored. */
  function FoldArgs(fs: Fields, a: Option<Req>): Option<Req> {
    match fs
    case End => a
    case Field(id, v, rest) => FoldArgs(rest, GivenArgs(id, v, a))
  }

  /** Type bytes tell structs from everything else. */
  lemma {:induction false} ReadsArgsField(id: int, v: Val, more: Bytes, a: Option<Req>)
    requires WfVal(v)
    ensures ReadArgsField(EncVal(v) + more, TypeOf(v), id, a) == GotArgs(|EncVal(v)|, GivenArgs(id, v, a))
  {
    SkipsVal(v, more);
    if v.Strct? { ReadsStruct(v.fields, more, Blank); }
  }

  lemma {:induction false} ReadArgsStep(
    buf: Bytes, body: Bytes, tail: Bytes, t: byte, id: int, a: Option<Req>, k: nat, b: Option<Req>,
    n: nat, r: Option<Req>)
    requires |buf| >= 3 + k && buf[0] == t != STOP && DecI16(buf[1], buf[2]) == id
    requires buf[3..] == body && buf[3 + k..] == tail
    requires ReadArgsField(body, t, id, a) == GotArgs(k, b) && ReadArgs(tail, b) == GotArgs(n, r)
    ensures ReadArgs(buf, a) == GotArgs(3 + k + n, r)
  {
  }

  function GivenArgs(id: int, v: Val, a: Option<Req>): Option<Req> {
    if id == 1 && v.Strct? then Some(Fold(v.fields, Blank)) else a
  }

  lemma {:induction false} ReadsArgs(fs: Fields, rest: Bytes, a: Option<Req>)
    requires WfFields(fs)
    ensures ReadArgs(EncFields(fs) + rest, a) == GotArgs(|EncFields(fs)|, FoldArgs(fs, a))
  {
    match fs
    case End =>
    case Field(id, v, more) =>
      var b, tail := GivenArgs(id, v, a), EncFields(more) + rest;
      ReadsArgs(more, rest, b);
      FieldFront(id, v, more, rest);
      ReadsArgsField(id, v, tail, a);
      ReadArgsStep(EncFields(fs) + rest, EncVal(v) + tail, tail, TypeOf(v),
        id, a, |EncVal(v)|, b, |EncFields(more)|, FoldArgs(more, b));
  }

  lemma {:induction false} ArgsAreStruct(a: Option<Req>)
    requires a.Some? ==> Fits(a.value)
    ensures var inner := if a.Some? then FieldsOf(a.value) else End;
      var fs := Field(1, Strct(inner), End);
      WfFields(fs) && EncFields(fs) == WrittenArgs(a) && |WrittenArgs(a)| == ArgsLength(a)
      && FoldArgs(fs, None) == Some(if a.Some? then a.value else Blank)
  {
    if a.Some? { WrittenIsStruct(a.value); LengthIsRight(a.value); FoldFields(a.value, Blank); }
    var inner := if a.Some? then FieldsOf(a.value) else End;
    assert WfVal(Strct(inner)) && WfFields(End) && EncFields(End) == [STOP];
    assert EncVal(Strct(inner)) == EncFields(inner);
    assert EncFields(Field(1, Strct(inner), End)) == [STRUCT] + EncI16(1) + EncFields(inner) + [STOP];
  }

  /** Reading the arguments inverts writing them if and only if there is a request: a nil one comes
      back as an empty one. Either way exactly the announced length is consumed. */
  lemma {:induction false} ArgsRoundTripIff(a: Option<Req>, rest: Bytes)
    requires a.Some? ==> Fits(a.value)
    ensures ReadArgs(WrittenArgs(a) + rest, None) == GotArgs(ArgsLength(a), Some(if a.Some? then a.value else Blank))
    ensures ReadArgs(WrittenArgs(a) + rest, None) == GotArgs(ArgsLength(a), a) <==> a.Some?
  {
    ArgsAreStruct(a);
    var inner := if a.Some? then FieldsOf(a.value) else End;
    ReadsArgs(Field(1, Strct(inner), End), rest, None);
  }
}
