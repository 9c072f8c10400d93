/** What the other modules share: bytes and their packing into four-byte numbers, the exceptions and results of the
    modelled code, joined chunks, and finite sums over lists, with which everything that is counted here is counted: how
    a sum changes when an element is appended, taken out or replaced. */
module Core {

  type Byte = b: int | 0 <= b < 256

  type Bytes = seq<Byte>

  /** The Python exceptions the modelled code raises. */
  datatype Error = TypeError | ValueError | AttributeError | StructError | EofError | KeyError | ZlibError | UnicodeError

  datatype Option<+T> = None | Some(value: T)

  datatype Result<+T> = Ok(value: T) | Err(error: Error) {
    predicate IsFailure() {
      Err?
    }

    function PropagateFailure<U>(): Result<U>
      requires Err?
    {
      Err(error)
    }

    function Extract(): T
      requires Ok?
    {
      value
    }
  }

  const TWO_32 := 0x1_0000_0000

  function Min(a: int, b: int): int {
    if a <= b then a else b
  }

  /** `Struct("!L").pack`. */
  function Pack4(n: int): Bytes
    requires 0 <= n < TWO_32
  {
    [n / 0x100_0000, n / 0x1_0000 % 0x100, n / 0x100 % 0x100, n % 0x100]
  }

  /** `Struct("!L").unpack`. */
  function Unpack4(s: Bytes): int
    requires |s| == 4
  {
    var a: int, b: int, c: int := s[0], s[1], s[2];
    a * 0x100_0000 + b * 0x1_0000 + c * 0x100 + s[3]
  }

  lemma UnpackPack4(n: int)
    requires 0 <= n < TWO_32
    ensures Unpack4(Pack4(n)) == n
  {
    var a, b, c := n / 0x100, n / 0x1_0000, n / 0x100_0000;
    assert n == a * 0x100 + n % 0x100;
    assert b == a / 0x100 && a == b * 0x100 + a % 0x100;
    assert c == b / 0x100 && b == c * 0x100 + b % 0x100;
  }

  /** The chunks of a list joined, as `b"".join`. */
  function Join(parts: seq<Bytes>): Bytes {
    if parts == [] then [] else parts[0] + Join(parts[1..])
  }

  lemma {:induction false} JoinAppend(parts: seq<Bytes>, more: seq<Bytes>)
    ensures Join(parts + more) == Join(parts) + Join(more)
  {
    if parts == [] {
      assert parts + more == more;
    } else {
      assert (parts + more)[1..] == parts[1..] + more;
      JoinAppend(parts[1..], more);
    }
  }

  lemma JoinSnoc(parts: seq<Bytes>, last: Bytes)
    ensures Join(parts + [last]) == Join(parts) + last
  {
    JoinAppend(parts, [last]);
    assert Join([last]) == last + Join([]);
  }

  lemma Regroup<T>(a: seq<T>, b: seq<T>, c: seq<T>)
    ensures a + b + c == a + (b + c)
  {
  }

  /** Moving the first element of one list to the end of another. */
  lemma MoveFirst<T>(a: seq<T>, b: seq<T>)
    requires b != []
    ensures a + [b[0]] + b[1..] == a + b
  {
  }

  /** The total weight of a list. */
  function Sum<T>(s: seq<T>, w: T -> nat): nat {
    if s == [] then 0 else w(s[0]) + Sum(s[1..], w)
  }

  lemma {:induction false} SumConcat<T>(a: seq<T>, b: seq<T>, w: T -> nat)
    ensures Sum(a + b, w) == Sum(a, w) + Sum(b, w)
  {
    if a == [] {
      assert a + b == b;
    } else {
      assert (a + b)[1..] == a[1..] + b;
      SumConcat(a[1..], b, w);
    }
  }

  lemma SumSnoc<T>(s: seq<T>, x: T, w: T -> nat)
    ensures Sum(s + [x], w) == Sum(s, w) + w(x)
  {
    SumConcat(s, [x], w);
    assert [x][1..] == [];
  }

  function Without<T>(s: seq<T>, i: nat): seq<T>
    requires i < |s|
  {
    s[..i] + s[i + 1..]
  }

  /** Taking one element out takes its weight out. */
  lemma {:induction false} SumWithout<T>(s: seq<T>, i: nat, w: T -> nat)
    requires i < |s|
    ensures Sum(s, w) == Sum(Without(s, i), w) + w(s[i])
  {
    if i == 0 {
      assert Without(s, i) == s[1..];
    } else {
      SumWithout(s[1..], i - 1, w);
      assert Without(s, i)[1..] == Without(s[1..], i - 1);
    }
  }

  lemma SumUpdate<T>(s: seq<T>, i: nat, x: T, w: T -> nat)
    requires i < |s|
    ensures Sum(s[i := x], w) + w(s[i]) == Sum(s, w) + w(x)
  {
    SumWithout(s, i, w);
    SumWithout(s[i := x], i, w);
    assert Without(s[i := x], i) == Without(s, i);
  }

  /** The weight that counts the copies of one number. */
  function Is(k: nat): nat -> nat {
    (x: nat) => if x == k then 1 else 0
  }

  function Copies(s: seq<nat>, k: nat): nat {
    Sum(s, Is(k))
  }

  lemma CopyOf(s: seq<nat>, k: nat)
    requires k in s
    ensures Copies(s, k) >= 1
  {
    var i :| 0 <= i < |s| && s[i] == k;
    SumWithout(s, i, Is(k));
  }
}
