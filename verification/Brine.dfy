/** The immutable-object serializer of rpyc_async/core/brine.py. */
module Brine {
  import opened Core

  /** A Python value. Floats and strings are the bytes they are packed into, `Surrogates` is a string that has no
      UTF-8 encoding, a frozenset is the sequence of its items in iteration order, and `Object` stands for every value
      whose type has no dumper. */
  datatype Value =
    | Nil
    | NotImpl
    | Ellipsis
    | Bool(b: bool)
    | Int(i: int)
    | Float(bits: Bits8)
    | Complex(re: Bits8, im: Bits8)
    | Bytes(data: Bytes)
    | Str(utf8: Bytes)
    | Surrogates
    | Tuple(items: seq<Value>)
    | FrozenSet(elems: seq<Value>)
    | Slice(start: Value, stop: Value, step: Value)
    | Object(ref: ObjRef)

  /** A by-reference object: one that lives here, or a netref to one that lives at the peer. */
  datatype ObjRef = Local(oid: nat, isAsync: bool) | Netref(name: Bytes, cls: int, inst: int)

  type Bits8 = s: Bytes | |s| == 8 witness [0, 0, 0, 0, 0, 0, 0, 0]

  const TAG_NONE: Byte := 0x00
  const TAG_EMPTY_STR: Byte := 0x01
  const TAG_EMPTY_TUPLE: Byte := 0x02
  const TAG_TRUE: Byte := 0x03
  const TAG_FALSE: Byte := 0x04
  const TAG_NOT_IMPLEMENTED: Byte := 0x05
  const TAG_ELLIPSIS: Byte := 0x06
  const TAG_UNICODE: Byte := 0x08
  const TAG_STR1: Byte := 0x0a
  const TAG_STR2: Byte := 0x0b
  const TAG_STR3: Byte := 0x0c
  const TAG_STR4: Byte := 0x0d
  const TAG_STR_L1: Byte := 0x0e
  const TAG_STR_L4: Byte := 0x0f
  const TAG_TUP1: Byte := 0x10
  const TAG_TUP2: Byte := 0x11
  const TAG_TUP3: Byte := 0x12
  const TAG_TUP4: Byte := 0x13
  const TAG_TUP_L1: Byte := 0x14
  const TAG_TUP_L4: Byte := 0x15
  const TAG_INT_L1: Byte := 0x16
  const TAG_INT_L4: Byte := 0x17
  const TAG_FLOAT: Byte := 0x18
  const TAG_SLICE: Byte := 0x19
  const TAG_FSET: Byte := 0x1a
  const TAG_COMPLEX: Byte := 0x1b
  const IMM_LO := -0x30
  const IMM_HI := 0xa0
  const IMM_BASE := 0x50

  // ---- decimal text ----

  /** The ASCII decimal digits of a natural number. */
  function Digits(n: nat): Bytes {
    if n < 10 then [48 + n] else Digits(n / 10) + [48 + n % 10]
  }

  /** `str(i)` as bytes. */
  function Decimal(i: int): Bytes {
    if i < 0 then [45] + Digits(-i) else Digits(i)
  }

  function ParseDigits(s: Bytes): Option<nat> {
    if s == [] then None
    else
      var last := s[|s| - 1];
      if !(48 <= last <= 57) then None
      else if |s| == 1 then Some(last - 48)
      else match ParseDigits(s[..|s| - 1])
        case None => None
        case Some(n) => Some(10 * n + last - 48)
  }

  /** `int(s)` of an ASCII byte string, for an optional sign followed by digits. */
  function ParseInt(s: Bytes): Result<int> {
    if s == [] then Err(ValueError)
    else
      var body := if s[0] == 45 || s[0] == 43 then s[1..] else s;
      match ParseDigits(body)
      case None => Err(ValueError)
      case Some(n) => Ok((if s[0] == 45 then -1 else 1) * n)
  }

  lemma {:induction false} ParseDigitsOfDigits(n: nat)
    ensures ParseDigits(Digits(n)) == Some(n)
    ensures Digits(n) != [] && 48 <= Digits(n)[0] <= 57
  {
    if n >= 10 {
      ParseDigitsOfDigits(n / 10);
      var s := Digits(n);
      assert s[..|s| - 1] == Digits(n / 10);
      assert s[|s| - 1] == 48 + n % 10;
    }
  }

  lemma ParseIntOfDecimal(i: int)
    ensures ParseInt(Decimal(i)) == Ok(i)
  {
    ParseDigitsOfDigits(if i < 0 then -i else i);
    if i < 0 {
      assert Decimal(i)[1..] == Digits(-i);
    }
  }

  // ---- dumping ----

  /** `dumpable`: what the code promises can be dumped. */
  predicate Dumpable(v: Value) {
    match v
    case Tuple(items) => forall x | x in items :: Dumpable(x)
    case FrozenSet(items) => forall x | x in items :: Dumpable(x)
    case Slice(a, b, c) => Dumpable(a) && Dumpable(b) && Dumpable(c)
    case Object(_) => false
    case _ => true
  }

  /** Every length the encoding writes fits the four bytes it has for it, and every string can be encoded. */
  predicate Fits(v: Value) {
    match v
    case Int(i) => |Decimal(i)| < TWO_32
    case Bytes(d) => |d| < TWO_32
    case Str(d) => |d| < TWO_32
    case Surrogates => false
    case Tuple(items) => |items| < TWO_32 && forall x | x in items :: Fits(x)
    case FrozenSet(items) => |items| < TWO_32 && forall x | x in items :: Fits(x)
    case Slice(a, b, c) => Fits(a) && Fits(b) && Fits(c)
    case _ => true
  }

  /** One chunk of output after another; the first exception wins. */
  function Then(x: Result<Bytes>, y: Result<Bytes>): Result<Bytes> {
    if x.Err? then x else if y.Err? then y else Ok(x.value + y.value)
  }

  /** A length under one of two tags, in one byte or in four. */
  function LengthPrefix(tag1: Byte, tag4: Byte, n: nat): Result<Bytes> {
    if n < 256 then Ok([tag1, n])
    else if n < TWO_32 then Ok([tag4] + Pack4(n))
    else Err(StructError)
  }

  function DumpInt(i: int): Result<Bytes> {
    if IMM_LO <= i < IMM_HI then Ok([i + IMM_BASE])
    else
      var text := Decimal(i);
      Then(LengthPrefix(TAG_INT_L1, TAG_INT_L4, |text|), Ok(text))
  }

  function BytesPrefix(n: nat): Result<Bytes> {
    if n == 0 then Ok([TAG_EMPTY_STR])
    else if n == 1 then Ok([TAG_STR1])
    else if n == 2 then Ok([TAG_STR2])
    else if n == 3 then Ok([TAG_STR3])
    else if n == 4 then Ok([TAG_STR4])
    else LengthPrefix(TAG_STR_L1, TAG_STR_L4, n)
  }

  function DumpBytes(d: Bytes): Result<Bytes> {
    Then(BytesPrefix(|d|), Ok(d))
  }

  function TuplePrefix(n: nat): Result<Bytes> {
    if n == 0 then Ok([TAG_EMPTY_TUPLE])
    else if n == 1 then Ok([TAG_TUP1])
    else if n == 2 then Ok([TAG_TUP2])
    else if n == 3 then Ok([TAG_TUP3])
    else if n == 4 then Ok([TAG_TUP4])
    else LengthPrefix(TAG_TUP_L1, TAG_TUP_L4, n)
  }

  /** What `_dump` writes for a value, or the exception it raises. */
  function Dump(v: Value): Result<Bytes>
    decreases v, 1
  {
    match v
    case Nil => Ok([TAG_NONE])
    case NotImpl => Ok([TAG_NOT_IMPLEMENTED])
    case Ellipsis => Ok([TAG_ELLIPSIS])
    case Bool(b) => Ok([if b then TAG_TRUE else TAG_FALSE])
    case Int(i) => DumpInt(i)
    case Float(bits) => Ok([TAG_FLOAT] + bits)
    case Complex(re, im) => Ok([TAG_COMPLEX] + re + im)
    case Bytes(d) => DumpBytes(d)
    case Str(d) => Then(Ok([TAG_UNICODE]), DumpBytes(d))
    case Surrogates => Err(UnicodeError)
    case Tuple(items) => DumpTuple(items)
    case FrozenSet(items) => Then(Ok([TAG_FSET]), DumpTuple(items))
    case Slice(a, b, c) =>
      // the dump of the triple (start, stop, step)
      Then(Ok([TAG_SLICE, TAG_TUP3]), Then(Then(Dump(a), Dump(b)), Dump(c)))
    case Object(_) => Err(TypeError)
  }

  function DumpTuple(items: seq<Value>): Result<Bytes>
    decreases items, 1
  {
    Then(TuplePrefix(|items|), DumpAll(items))
  }

  function DumpAll(items: seq<Value>): Result<Bytes>
    decreases items, 0
  {
    if items == [] then Ok([]) else Then(Dump(items[0]), DumpAll(items[1..]))
  }

  // ---- loading ----

  /** `stream.read(n)`: at most n bytes, fewer at the end of the data. */
  function Taken(data: Bytes, n: nat): Bytes {
    data[..Min(n, |data|)]
  }

  function Left(data: Bytes, n: nat): Bytes {
    data[Min(n, |data|)..]
  }

  /** The length read back from one or four bytes. */
  function LoadLength(data: Bytes, width: nat): Result<(nat, Bytes)>
    requires width == 1 || width == 4
  {
    if |data| < width then Err(StructError)
    else if width == 1 then Ok((data[0], data[1..]))
    else Ok((Unpack4(data[..4]), data[4..]))
  }

  function LoadBytes(data: Bytes, n: nat): Result<(Value, Bytes)> {
    Ok((Bytes(Taken(data, n)), Left(data, n)))
  }

  function LoadBytesL(data: Bytes, width: nat): Result<(Value, Bytes)>
    requires width == 1 || width == 4
  {
    var (n, rest) :- LoadLength(data, width);
    LoadBytes(rest, n)
  }

  function LoadIntL(data: Bytes, width: nat): Result<(Value, Bytes)>
    requires width == 1 || width == 4
  {
    var (n, rest) :- LoadLength(data, width);
    var i :- ParseInt(Taken(rest, n));
    Ok((Int(i), Left(rest, n)))
  }

  /** The items an iteration over a loaded value yields. */
  function Iterate(v: Value): Result<seq<Value>> {
    match v
    case Tuple(items) => Ok(items)
    case FrozenSet(items) => Ok(items)
    case Bytes(d) => Ok(seq(|d|, i requires 0 <= i < |d| => Int(d[i])))
    case _ => Err(TypeError)
  }

  /** The loaders that do not call `_load` again. */
  function LoadLeaf(tag: Byte, rest: Bytes): (r: Result<(Value, Bytes)>)
    ensures r.Ok? ==> |r.value.1| <= |rest|
  {
    if tag == TAG_NONE then Ok((Nil, rest))
    else if tag == TAG_NOT_IMPLEMENTED then Ok((NotImpl, rest))
    else if tag == TAG_ELLIPSIS then Ok((Ellipsis, rest))
    else if tag == TAG_TRUE then Ok((Bool(true), rest))
    else if tag == TAG_FALSE then Ok((Bool(false), rest))
    else if tag == TAG_EMPTY_STR then Ok((Bytes([]), rest))
    else if tag == TAG_FLOAT then
      if |rest| < 8 then Err(StructError) else Ok((Float(rest[..8]), rest[8..]))
    else if tag == TAG_COMPLEX then
      if |rest| < 16 then Err(StructError) else Ok((Complex(rest[..8], rest[8..16]), rest[16..]))
    else if tag == TAG_STR1 then LoadBytes(rest, 1)
    else if tag == TAG_STR2 then LoadBytes(rest, 2)
    else if tag == TAG_STR3 then LoadBytes(rest, 3)
    else if tag == TAG_STR4 then LoadBytes(rest, 4)
    else if tag == TAG_STR_L1 then LoadBytesL(rest, 1)
    else if tag == TAG_STR_L4 then LoadBytesL(rest, 4)
    else if tag == TAG_INT_L1 then LoadIntL(rest, 1)
    else if tag == TAG_INT_L4 then LoadIntL(rest, 4)
    else Err(TypeError)
  }

  predicate IsTupleTag(tag: Byte) {
    tag == TAG_EMPTY_TUPLE || TAG_TUP1 <= tag <= TAG_TUP_L4
  }

  /** How many items a tuple tag announces, and the bytes after the announcement. */
  function TupleCount(tag: Byte, rest: Bytes): (r: Result<(nat, Bytes)>)
    requires IsTupleTag(tag)
    ensures r.Ok? ==> |r.value.1| <= |rest|
  {
    if tag == TAG_EMPTY_TUPLE then Ok((0, rest))
    else if tag == TAG_TUP_L1 then LoadLength(rest, 1)
    else if tag == TAG_TUP_L4 then LoadLength(rest, 4)
    else Ok((tag - TAG_TUP1 + 1, rest))
  }

  /** What `_load` reads from the front of the data: the value and the bytes left over. */
  function Load(data: Bytes): (r: Result<(Value, Bytes)>)
    ensures r.Ok? ==> |r.value.1| < |data|
    decreases |data|, 0
  {
    if data == [] then Err(TypeError)
    else
      var tag, rest := data[0], data[1..];
      if IMM_LO + IMM_BASE <= tag < IMM_HI + IMM_BASE then Ok((Int(tag - IMM_BASE), rest))
      else if IsTupleTag(tag) then
        var (n, left) :- TupleCount(tag, rest);
        var (items, left') :- LoadMany(left, n);
        Ok((Tuple(items), left'))
      else if tag == TAG_UNICODE then
        var (v, left) :- Load(rest);
        if v.Bytes? then Ok((Str(v.data), left)) else Err(AttributeError)
      else if tag == TAG_SLICE then
        var (v, left) :- Load(rest);
        var parts :- Iterate(v);
        if |parts| != 3 then Err(ValueError) else Ok((Slice(parts[0], parts[1], parts[2]), left))
      else if tag == TAG_FSET then
        var (v, left) :- Load(rest);
        var items :- Iterate(v);
        Ok((FrozenSet(items), left))
      else LoadLeaf(tag, rest)
  }

  function LoadMany(data: Bytes, n: nat): (r: Result<(seq<Value>, Bytes)>)
    ensures r.Ok? ==> |r.value.1| <= |data|
    decreases |data|, 1
  {
    if n == 0 then Ok(([], data))
    else
      var (v, rest) :- Load(data);
      var (vs, left) :- LoadMany(rest, n - 1);
      Ok(([v] + vs, left))
  }

  // ---- the laws ----

  lemma LoadLengthOf(tag1: Byte, tag4: Byte, n: nat, rest: Bytes)
    requires LengthPrefix(tag1, tag4, n).Ok?
    ensures var p := LengthPrefix(tag1, tag4, n).value + rest;
            if n < 256 then p[0] == tag1 && LoadLength(p[1..], 1) == Ok((n, rest))
            else p[0] == tag4 && LoadLength(p[1..], 4) == Ok((n, rest))
  {
    var p := LengthPrefix(tag1, tag4, n).value + rest;
    if n < 256 {
      assert p[1..] == [n] + rest;
    } else {
      assert p[1..] == Pack4(n) + rest;
      assert p[1..][..4] == Pack4(n);
      UnpackPack4(n);
    }
  }

  lemma LoadDumpInt(i: int, rest: Bytes)
    requires DumpInt(i).Ok?
    ensures Load(DumpInt(i).value + rest) == Ok((Int(i), rest))
  {
    var out := DumpInt(i).value + rest;
    if IMM_LO <= i < IMM_HI {
      assert out[1..] == rest;
    } else {
      var text := Decimal(i);
      var prefix := LengthPrefix(TAG_INT_L1, TAG_INT_L4, |text|).value;
      assert out == prefix + (text + rest);
      LoadLengthOf(TAG_INT_L1, TAG_INT_L4, |text|, text + rest);
      ParseIntOfDecimal(i);
      assert LoadLeaf(out[0], out[1..]) == Ok((Int(i), rest));
    }
  }

  lemma LoadDumpFloats(re: Bits8, im: Bits8, rest: Bytes)
    ensures Load([TAG_FLOAT] + re + rest) == Ok((Float(re), rest))
    ensures Load([TAG_COMPLEX] + re + im + rest) == Ok((Complex(re, im), rest))
  {
    var f, c := [TAG_FLOAT] + re + rest, [TAG_COMPLEX] + re + im + rest;
    assert f[1..] == re + rest && c[1..] == re + (im + rest);
    assert c[1..][8..16] == im && c[1..][16..] == rest;
    assert LoadLeaf(TAG_COMPLEX, c[1..]) == Ok((Complex(re, im), rest));
  }

  lemma LoadDumpBytes(d: Bytes, rest: Bytes)
    requires DumpBytes(d).Ok?
    ensures Load(DumpBytes(d).value + rest) == Ok((Bytes(d), rest))
  {
    var prefix := BytesPrefix(|d|).value;
    var out := DumpBytes(d).value + rest;
    assert out == prefix + (d + rest);
    if |d| <= 4 {
      assert out[1..] == d + rest;
    } else {
      LoadLengthOf(TAG_STR_L1, TAG_STR_L4, |d|, d + rest);
    }
    assert LoadLeaf(out[0], out[1..]) == Ok((Bytes(d), rest));
  }

  lemma TupleCountOf(n: nat, rest: Bytes)
    requires TuplePrefix(n).Ok?
    ensures var p := TuplePrefix(n).value + rest;
            IsTupleTag(p[0]) && TupleCount(p[0], p[1..]) == Ok((n, rest))
  {
    var p := TuplePrefix(n).value + rest;
    if n <= 4 {
      assert p[1..] == rest;
    } else {
      LoadLengthOf(TAG_TUP_L1, TAG_TUP_L4, n, rest);
    }
  }

  lemma {:induction false} LoadDumpTuple(items: seq<Value>, rest: Bytes)
    requires DumpTuple(items).Ok?
    ensures Load(DumpTuple(items).value + rest) == Ok((Tuple(items), rest))
    decreases items, 1
  {
    LoadManyDumpAll(items, rest);
    var body := DumpAll(items).value;
    assert DumpTuple(items).value + rest == TuplePrefix(|items|).value + (body + rest);
    TupleCountOf(|items|, body + rest);
  }

  /** Loading what was dumped gives the value back and leaves exactly the bytes that follow. */
  lemma {:induction false} LoadDump(v: Value, rest: Bytes)
    requires Dump(v).Ok?
    ensures Load(Dump(v).value + rest) == Ok((v, rest))
    decreases v, 1
  {
    if v.Tuple? {
      LoadDumpTuple(v.items, rest);
    } else if v.FrozenSet? {
      assert (Dump(v).value + rest)[1..] == DumpTuple(v.elems).value + rest;
      LoadDumpTuple(v.elems, rest);
    } else if v.Slice? {
      LoadDumpSlice(v, rest);
    } else {
      LoadDumpLeaf(v, rest);
    }
  }

  lemma LoadDumpLeaf(v: Value, rest: Bytes)
    requires Dump(v).Ok? && !v.Tuple? && !v.FrozenSet? && !v.Slice?
    ensures Load(Dump(v).value + rest) == Ok((v, rest))
  {
    var out := Dump(v).value + rest;
    match v
    case Int(i) => LoadDumpInt(i, rest);
    case Float(bits) => LoadDumpFloats(bits, bits, rest);
    case Complex(re, im) => LoadDumpFloats(re, im, rest);
    case Bytes(d) => LoadDumpBytes(d, rest);
    case Str(d) =>
      assert out[1..] == DumpBytes(d).value + rest;
      LoadDumpBytes(d, rest);
    case Nil => assert out[1..] == rest;
    case NotImpl => assert out[1..] == rest;
    case Ellipsis => assert out[1..] == rest;
    case Bool(_) => assert out[1..] == rest;
  }

  lemma {:induction false} LoadDumpSlice(v: Value, rest: Bytes)
    requires v.Slice? && Dump(v).Ok?
    ensures Load(Dump(v).value + rest) == Ok((v, rest))
    decreases v, 0
  {
    var x, y, z := Dump(v.start).value, Dump(v.stop).value, Dump(v.step).value;
    LoadDump(v.start, y + (z + rest));
    LoadDump(v.stop, z + rest);
    LoadDump(v.step, rest);
    LoadSliceBytes(v.start, v.stop, v.step, x, y, z, rest);
  }

  lemma LoadSliceBytes(a: Value, b: Value, c: Value, x: Bytes, y: Bytes, z: Bytes, rest: Bytes)
    requires Load(x + (y + (z + rest))) == Ok((a, y + (z + rest)))
    requires Load(y + (z + rest)) == Ok((b, z + rest))
    requires Load(z + rest) == Ok((c, rest))
    ensures Load([TAG_SLICE, TAG_TUP3] + (x + y + z) + rest) == Ok((Slice(a, b, c), rest))
  {
    var triple := x + (y + (z + rest));
    SliceLayout(x, y, z, rest);
    LoadTriple(a, b, c, triple, y + (z + rest), z + rest, rest);
  }

  lemma SliceLayout(x: Bytes, y: Bytes, z: Bytes, rest: Bytes)
    ensures [TAG_SLICE, TAG_TUP3] + (x + y + z) + rest == [TAG_SLICE] + ([TAG_TUP3] + (x + (y + (z + rest))))
  {
    var head := [TAG_SLICE, TAG_TUP3];
    assert head + (x + y + z) + rest == head + (x + (y + (z + rest)));
    assert head == [TAG_SLICE] + [TAG_TUP3];
  }

  lemma LoadTriple(a: Value, b: Value, c: Value, d0: Bytes, d1: Bytes, d2: Bytes, rest: Bytes)
    requires Load(d0) == Ok((a, d1)) && Load(d1) == Ok((b, d2)) && Load(d2) == Ok((c, rest))
    ensures Load([TAG_TUP3] + d0) == Ok((Tuple([a, b, c]), rest))
  {
    LoadManyStep(c, [], d2, rest, rest);
    assert [c] + [] == [c] && [b] + [c] == [b, c] && [a] + [b, c] == [a, b, c];
    LoadManyStep(b, [c], d1, d2, rest);
    LoadManyStep(a, [b, c], d0, d1, rest);
    assert ([TAG_TUP3] + d0)[1..] == d0;
  }

  lemma LoadManyStep(v: Value, vs: seq<Value>, data: Bytes, rest: Bytes, left: Bytes)
    requires Load(data) == Ok((v, rest)) && LoadMany(rest, |vs|) == Ok((vs, left))
    ensures LoadMany(data, |vs| + 1) == Ok(([v] + vs, left))
  {
  }

  lemma {:induction false} LoadManyDumpAll(items: seq<Value>, rest: Bytes)
    requires DumpAll(items).Ok?
    ensures LoadMany(DumpAll(items).value + rest, |items|) == Ok((items, rest))
    decreases items, 0
  {
    if items == [] {
      assert DumpAll(items).value + rest == rest;
    } else {
      var first, others := Dump(items[0]).value, DumpAll(items[1..]).value;
      assert DumpAll(items).value + rest == first + (others + rest);
      LoadDump(items[0], others + rest);
      LoadManyDumpAll(items[1..], rest);
      assert [items[0]] + items[1..] == items;
    }
  }

  /** No encoding is a proper prefix of another, and distinct values have distinct encodings. */
  lemma PrefixFree(v: Value, w: Value, after: Bytes, after': Bytes)
    requires Dump(v).Ok? && Dump(w).Ok?
    requires Dump(v).value + after == Dump(w).value + after'
    ensures v == w && after == after'
  {
    LoadDump(v, after);
    LoadDump(w, after');
  }

  /** `dumpable` answers exactly whether `_dump` succeeds, for values within the length limits and without a string
      that can not be encoded; among those a rejected value raises the type error. */
  lemma {:induction false} DumpableIffDumps(v: Value)
    ensures Dump(v).Ok? <==> Dumpable(v) && Fits(v)
    ensures Fits(v) && !Dumpable(v) ==> Dump(v) == Err(TypeError)
    decreases v, 1
  {
    match v
    case Tuple(items) => DumpableIffDumpsAll(items);
    case FrozenSet(items) => DumpableIffDumpsAll(items);
    case Slice(a, b, c) =>
      DumpableIffDumps(a);
      DumpableIffDumps(b);
      DumpableIffDumps(c);
    case Int(i) =>
      if IMM_LO <= i < IMM_HI {
        var n := if i < 0 then -i else i;
        assert |Digits(n / 10 / 10)| == 1;
        assert |Digits(n / 10)| <= 2;
      }
    case _ =>
  }

  lemma {:induction false} DumpableIffDumpsAll(items: seq<Value>)
    ensures DumpAll(items).Ok? <==> forall x | x in items :: Dumpable(x) && Fits(x)
    ensures (forall x | x in items :: Fits(x)) && !(forall x | x in items :: Dumpable(x)) ==> DumpAll(items) == Err(TypeError)
    decreases items, 0
  {
    if items != [] {
      DumpableIffDumps(items[0]);
      DumpableIffDumpsAll(items[1..]);
      assert forall x :: x in items <==> x == items[0] || x in items[1..];
    }
  }

  /** The hexadecimal example in the documentation, item by item (its first string read as bytes). */
  lemma DocumentedExample(f: Bits8, g: Bits8)
    ensures TuplePrefix(14) == Ok([0x14, 0x0e])
    ensures Writes(Bytes([0x68, 0x65]), [0x0b, 0x68, 0x65])
    ensures Writes(Int(7), [0x57]) && Writes(Int(8), [0x58]) && Writes(Tuple([]), [0x02])
    ensures Writes(Str([0x6c, 0x6c, 0x6f]), [0x08, 0x0c, 0x6c, 0x6c, 0x6f])
    ensures Writes(Int(900), [0x16, 0x03, 0x39, 0x30, 0x30])
    ensures Writes(Nil, [0x00]) && Writes(Bool(true), [0x03]) && Writes(Ellipsis, [0x06]) && Writes(NotImpl, [0x05])
    ensures Writes(Float(f), [0x18] + f) && Writes(Complex(g, f), [0x1b] + g + f)
  {
    assert Decimal(900) == [0x39, 0x30, 0x30];
  }

  lemma DocumentedContainers()
    ensures Writes(Slice(Int(1), Int(2), Int(3)), [0x19, 0x12, 0x51, 0x52, 0x53])
    ensures Writes(FrozenSet([Int(5), Int(6), Int(7)]), [0x1a, 0x12, 0x55, 0x56, 0x57])
  {
    SmallIntDumps();
    DumpThree(Int(5), Int(6), Int(7), 0x55, 0x56, 0x57);
  }

  lemma SmallIntDumps()
    ensures forall i | IMM_LO <= i < IMM_HI :: Writes(Int(i), [i + IMM_BASE])
  {
  }

  lemma DumpThree(a: Value, b: Value, c: Value, x: Byte, y: Byte, z: Byte)
    requires Writes(a, [x]) && Writes(b, [y]) && Writes(c, [z])
    ensures DumpAll([a, b, c]) == Ok([x, y, z])
  {
    assert [a, b, c][1..] == [b, c] && [b, c][1..] == [c] && [c][1..] == [];
    assert DumpAll([]) == Ok([]);
    assert [z] + [] == [z] && DumpAll([c]) == Ok([z]);
    assert [y] + [z] == [y, z] && DumpAll([b, c]) == Ok([y, z]);
    assert [x] + [y, z] == [x, y, z];
  }

  predicate Writes(v: Value, text: Bytes) {
    Dump(v).Ok? && Dump(v).value == text
  }

  /** How an int is written: one byte from -48 to 159, otherwise its decimal text behind a length of one byte or four. */
  lemma IntLayout(i: int)
    requires Dump(Int(i)).Ok?
    ensures var out, text := Dump(Int(i)).value, Decimal(i);
            if -48 <= i < 160 then out == [i + 80]
            else if |text| < 256 then out == [0x16, |text|] + text
            else |out| == |text| + 5 && out[0] == 0x17 && out[1..5] == Pack4(|text|) && out[5..] == text
  {
  }

  /** How bytes are written: up to four behind a tag of their own, more behind a length of one byte or four. */
  lemma BytesLayout(d: Bytes)
    requires Dump(Bytes(d)).Ok?
    ensures var out := Dump(Bytes(d)).value;
            if d == [] then out == [0x01]
            else if |d| <= 4 then |out| == |d| + 1 && out[0] == 0x09 + |d| && out[1..] == d
            else if |d| < 256 then out == [0x0e, |d|] + d
            else |out| == |d| + 5 && out[0] == 0x0f && out[1..5] == Pack4(|d|) && out[5..] == d
  {
    if d == [] {
      assert [0x01] + d == [0x01];
    }
  }

  /** How the count of a tuple is written, in front of its items. */
  lemma TupleLayout(items: seq<Value>)
    requires |items| < TWO_32 && DumpAll(items).Ok?
    ensures Dump(Tuple(items)).Ok?
    ensures var out, n, body := Dump(Tuple(items)).value, |items|, DumpAll(items).value;
            if n == 0 then out == [0x02]
            else if n <= 4 then out == [0x0f + n] + body
            else if n < 256 then out == [0x14, n] + body
            else |out| == |body| + 5 && out[0] == 0x15 && out[1..5] == Pack4(n) && out[5..] == body
  {
    var n, body := |items|, DumpAll(items).value;
    assert Dump(Tuple(items)) == Then(TuplePrefix(n), Ok(body));
    if n == 0 {
      assert body == [] && [0x02] + body == [0x02];
    } else if n >= 256 {
      assert TuplePrefix(n) == Ok([TAG_TUP_L4] + Pack4(n));
    }
  }
}
