/** The serializer as the program runs it: dumping appends to a list, loading moves a cursor. */
module BrineStreams {
  import opened Core
  import opened Brine

  /** The list of chunks that `dump` joins at the end. */
  class DumpStream {
    var parts: seq<Bytes>

    ghost function Text(): Bytes
      reads this
    {
      Join(parts)
    }

    constructor ()
      ensures Text() == []
    {
      parts := [];
    }

    method Append(chunk: Bytes)
      modifies this
      ensures Text() == old(Text()) + chunk
    {
      JoinSnoc(parts, chunk);
      parts := parts + [chunk];
    }

    /** Appends a computed chunk unless computing it raised. */
    method AppendResult(chunk: Result<Bytes>) returns (r: Result<()>)
      modifies this
      ensures Emits(old(Text()), chunk, r, Text())
    {
      if chunk.Err? {
        return Err(chunk.error);
      }
      Append(chunk.value);
      r := Ok(());
    }

    /** `_dump`: on success the text of the value is appended, otherwise the dumper's exception is raised. */
    method DumpValue(v: Value) returns (r: Result<()>)
      modifies this
      ensures Emits(old(Text()), Dump(v), r, Text())
      decreases v, 1
    {
      match v
      case Tuple(items) => r := DumpTupleItems(items);
      case FrozenSet(items) =>
        Append([TAG_FSET]);
        ghost var middle := Text();
        r := DumpTupleItems(items);
        EmitsThen(old(Text()), Ok([TAG_FSET]), Ok(()), middle, DumpTuple(items), r, Text());
      case Slice(a, b, c) =>
        Append([TAG_SLICE, TAG_TUP3]);
        ghost var middle := Text();
        r := DumpTriple(a, b, c);
        EmitsThen(old(Text()), Ok([TAG_SLICE, TAG_TUP3]), Ok(()), middle, Then(Then(Dump(a), Dump(b)), Dump(c)), r, Text());
      case Surrogates =>
        Append([TAG_UNICODE]);
        r := Err(UnicodeError);
      case Str(d) =>
        Append([TAG_UNICODE]);
        ghost var middle := Text();
        r := AppendResult(DumpBytes(d));
        EmitsThen(old(Text()), Ok([TAG_UNICODE]), Ok(()), middle, DumpBytes(d), r, Text());
      case _ => r := AppendResult(Dump(v));
    }

    /** The items of the triple that stands for a slice. */
    method DumpTriple(a: Value, b: Value, c: Value) returns (r: Result<()>)
      modifies this
      ensures Emits(old(Text()), Then(Then(Dump(a), Dump(b)), Dump(c)), r, Text())
      decreases Slice(a, b, c), 0
    {
      r := DumpValue(a);
      if r.Err? { return; }
      ghost var one := Text();
      r := DumpValue(b);
      EmitsThen(old(Text()), Dump(a), Ok(()), one, Dump(b), r, Text());
      if r.Err? { return; }
      ghost var two := Text();
      r := DumpValue(c);
      EmitsThen(old(Text()), Then(Dump(a), Dump(b)), Ok(()), two, Dump(c), r, Text());
    }

    method DumpTupleItems(items: seq<Value>) returns (r: Result<()>)
      modifies this
      ensures Emits(old(Text()), DumpTuple(items), r, Text())
      decreases items, 1
    {
      r := AppendResult(TuplePrefix(|items|));
      if r.Ok? {
        ghost var middle := Text();
        r := DumpItems(items);
        EmitsThen(old(Text()), TuplePrefix(|items|), Ok(()), middle, DumpAll(items), r, Text());
      }
    }

    /** The loop of `_dump_tuple`. */
    method DumpItems(items: seq<Value>) returns (r: Result<()>)
      modifies this
      ensures Emits(old(Text()), DumpAll(items), r, Text())
      decreases items, 0
    {
      ghost var start := Text();
      assert items[0..] == items;
      r := Ok(());
      for i := 0 to |items|
        invariant r.Ok?
        invariant forall r', t :: Emits(Text(), DumpAll(items[i..]), r', t) ==> Emits(start, DumpAll(items), r', t)
      {
        ghost var here := Text();
        assert items[i..][0] == items[i] && items[i..][1..] == items[i + 1..];
        r := DumpValue(items[i]);
        if r.Err? {
          assert Emits(here, DumpAll(items[i..]), r, Text());
          return;
        }
        forall r', t | Emits(Text(), DumpAll(items[i + 1..]), r', t)
          ensures Emits(start, DumpAll(items), r', t)
        {
          EmitsThen(here, Dump(items[i]), Ok(()), Text(), DumpAll(items[i + 1..]), r', t);
        }
      }
      assert Emits(Text(), DumpAll(items[|items|..]), r, Text());
    }

    /** Starting from `start`, writing `chunk` ended with the result r and the text `after`. */
    static ghost predicate Emits(start: Bytes, chunk: Result<Bytes>, r: Result<()>, after: Bytes) {
      if chunk.Err? then r.Err? && r.error == chunk.error else r.Ok? && after == start + chunk.value
    }

    static lemma EmitsThen(start: Bytes, x: Result<Bytes>, r: Result<()>, middle: Bytes,
                           y: Result<Bytes>, r': Result<()>, after: Bytes)
      requires Emits(start, x, r, middle) && r.Ok?
      requires Emits(middle, y, r', after)
      ensures Emits(start, Then(x, y), r', after)
    {
      if y.Ok? {
        assert start + x.value + y.value == start + (x.value + y.value);
      }
    }
  }

  /** `BytesIO`: immutable data and a read position. */
  class BytesIO {
    const data: Bytes
    var pos: nat

    ghost predicate Valid()
      reads this
    {
      pos <= |data|
    }

    ghost function Rest(): Bytes
      reads this
      requires Valid()
    {
      data[pos..]
    }

    constructor (data: Bytes)
      ensures Valid() && Rest() == data
    {
      this.data := data;
      pos := 0;
    }

    method Read(n: nat) returns (b: Bytes)
      requires Valid()
      modifies this
      ensures Valid()
      ensures b == Taken(old(Rest()), n) && Rest() == Left(old(Rest()), n)
    {
      var end := Min(pos + n, |data|);
      b := data[pos..end];
      pos := end;
    }

    method ReadLength(width: nat) returns (r: Result<nat>)
      requires Valid() && (width == 1 || width == 4)
      modifies this
      ensures Valid() && |Rest()| <= old(|Rest()|)
      ensures LoadLength(old(Rest()), width) == With(r, Rest())
    {
      ghost var was := Rest();
      var b := Read(width);
      if |b| < width {
        return Err(StructError);
      }
      r := Ok(if width == 1 then b[0] else Unpack4(b));
    }

    /** The result of a read together with what is left; an error keeps nothing. */
    static ghost function With<T>(r: Result<T>, rest: Bytes): Result<(T, Bytes)> {
      if r.Ok? then Ok((r.value, rest)) else Err(r.error)
    }

    /** `_load`: the value at the cursor, which ends up just after it. */
    method LoadValue() returns (r: Result<Value>)
      requires Valid()
      modifies this
      ensures Valid() && |Rest()| <= old(|Rest()|)
      ensures Load(old(Rest())) == With(r, Rest())
      decreases |Rest()|, 0
    {
      ghost var was := Rest();
      var b := Read(1);
      if b == [] {
        return Err(TypeError);
      }
      var tag := b[0];
      assert Rest() == was[1..];
      if IMM_LO + IMM_BASE <= tag < IMM_HI + IMM_BASE {
        return Ok(Int(tag - IMM_BASE));
      } else if IsTupleTag(tag) {
        r := LoadTupleValue(tag);
      } else if tag == TAG_UNICODE {
        r := LoadValue();
        if r.Ok? {
          r := if r.value.Bytes? then Ok(Str(r.value.data)) else Err(AttributeError);
        }
      } else if tag == TAG_SLICE {
        r := LoadValue();
        if r.Ok? {
          var parts := Iterate(r.value);
          r := if parts.Err? then Err(parts.error)
               else if |parts.value| != 3 then Err(ValueError)
               else Ok(Slice(parts.value[0], parts.value[1], parts.value[2]));
        }
      } else if tag == TAG_FSET {
        r := LoadValue();
        if r.Ok? {
          var items := Iterate(r.value);
          r := if items.Err? then Err(items.error) else Ok(FrozenSet(items.value));
        }
      } else {
        r := LoadLeafValue(tag);
      }
    }

    method LoadTupleValue(tag: Byte) returns (r: Result<Value>)
      requires Valid() && IsTupleTag(tag)
      modifies this
      ensures Valid() && |Rest()| <= old(|Rest()|)
      ensures (var (n, left) :- TupleCount(tag, old(Rest()));
               var (items, left') :- LoadMany(left, n);
               Ok((Tuple(items), left'))) == With(r, Rest())
      decreases |Rest()|, 2
    {
      var n: nat;
      if tag == TAG_TUP_L1 || tag == TAG_TUP_L4 {
        var count := ReadLength(if tag == TAG_TUP_L1 then 1 else 4);
        if count.Err? {
          return Err(count.error);
        }
        n := count.value;
      } else {
        n := if tag == TAG_EMPTY_TUPLE then 0 else tag - TAG_TUP1 + 1;
      }
      var items := LoadItems(n);
      r := if items.Err? then Err(items.error) else Ok(Tuple(items.value));
    }

    /** n values read one after another, as the tuple loaders do. */
    method LoadItems(n: nat) returns (r: Result<seq<Value>>)
      requires Valid()
      modifies this
      ensures Valid() && |Rest()| <= old(|Rest()|)
      ensures LoadMany(old(Rest()), n) == With(r, Rest())
      decreases |Rest()|, 1
    {
      ghost var body := Rest();
      var items: seq<Value> := [];
      OntoNothing(LoadMany(body, n));
      for i := 0 to n
        invariant Valid() && |Rest()| <= |body|
        invariant LoadMany(body, n) == Onto(items, LoadMany(Rest(), n - i))
      {
        ghost var here := Rest();
        var item := LoadValue();
        assert LoadMany(here, n - i) == if item.Err? then Err(item.error) else Onto([item.value], LoadMany(Rest(), n - i - 1));
        if item.Err? {
          return Err(item.error);
        }
        OntoOnto(items, item.value, LoadMany(Rest(), n - i - 1));
        items := items + [item.value];
      }
      assert items + [] == items;
      r := Ok(items);
    }

    /** A list result with the items already read put in front of it. */
    static ghost function Onto(items: seq<Value>, more: Result<(seq<Value>, Bytes)>): Result<(seq<Value>, Bytes)> {
      if more.Ok? then Ok((items + more.value.0, more.value.1)) else more
    }

    static lemma OntoNothing(more: Result<(seq<Value>, Bytes)>)
      ensures Onto([], more) == more
    {
      if more.Ok? { assert [] + more.value.0 == more.value.0; }
    }

    static lemma OntoOnto(items: seq<Value>, v: Value, more: Result<(seq<Value>, Bytes)>)
      ensures Onto(items, Onto([v], more)) == Onto(items + [v], more)
    {
      if more.Ok? { assert items + ([v] + more.value.0) == items + [v] + more.value.0; }
    }

    method LoadLeafValue(tag: Byte) returns (r: Result<Value>)
      requires Valid()
      modifies this
      ensures Valid() && |Rest()| <= old(|Rest()|)
      ensures LoadLeaf(tag, old(Rest())) == With(r, Rest())
    {
      if tag == TAG_FLOAT {
        var b := Read(8);
        r := if |b| < 8 then Err(StructError) else Ok(Float(b));
      } else if tag == TAG_COMPLEX {
        ghost var was := Rest();
        var b := Read(16);
        r := if |b| < 16 then Err(StructError) else Ok(Complex(b[..8], b[8..]));
        assert |b| == 16 ==> b[..8] == was[..8] && b[8..] == was[8..16];
      } else if TAG_STR1 <= tag <= TAG_STR4 {
        var b := Read(tag - TAG_STR1 + 1);
        r := Ok(Bytes(b));
      } else if tag == TAG_STR_L1 || tag == TAG_STR_L4 || tag == TAG_INT_L1 || tag == TAG_INT_L4 {
        var n := ReadLength(if tag == TAG_STR_L1 || tag == TAG_INT_L1 then 1 else 4);
        if n.Err? {
          return Err(n.error);
        }
        var b := Read(n.value);
        if tag == TAG_STR_L1 || tag == TAG_STR_L4 {
          r := Ok(Bytes(b));
        } else {
          var i := ParseInt(b);
          r := if i.Err? then Err(i.error) else Ok(Int(i.value));
        }
      } else {
        r := if tag == TAG_NONE then Ok(Nil)
             else if tag == TAG_NOT_IMPLEMENTED then Ok(NotImpl)
             else if tag == TAG_ELLIPSIS then Ok(Ellipsis)
             else if tag == TAG_TRUE then Ok(Bool(true))
             else if tag == TAG_FALSE then Ok(Bool(false))
             else if tag == TAG_EMPTY_STR then Ok(Bytes([]))
             else Err(TypeError);
      }
    }
  }

  /** `load(dump(v))` on the real streams: every value that `dumpable` accepts, within the length limits,
      comes back unchanged, and no other value gets through `dump`. */
  method DumpThenLoad(v: Value) returns (r: Result<Value>)
    ensures Fits(v) ==> r == if Dumpable(v) then Ok(v) else Err(TypeError)
    ensures r.Ok? ==> r.value == v
  {
    DumpableIffDumps(v);
    var stream := new DumpStream();
    var dumped := stream.DumpValue(v);
    if dumped.Err? {
      return Err(dumped.error);
    }
    var text := Join(stream.parts);
    var reader := new BytesIO(text);
    assert text == Dump(v).value + [];
    LoadDump(v, []);
    r := reader.LoadValue();
  }
}
