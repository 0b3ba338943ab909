/** Numbers, names and lists as the two protocols put them on the wire, and how a parser takes them off
    again.  Encoders are written onto the bytes that follow (`rest`), so that a parser meets them in order. */
module Bytes {
  import opened Sequences

  type byte = n: nat | n < 256 witness 0
  type u16 = n: nat | n < 65536 witness 0
  type u32 = n: nat | n < 4294967296 witness 0
  type i16 = n: int | -32768 <= n < 32768 witness 0
  type i32 = n: int | -2147483648 <= n < 2147483648 witness 0

  // ------------------------------------------------------------------ numbers

  /** Big-endian, as `htons` leaves them in memory. */
  function U16(v: u16): (b: seq<byte>)
    ensures |b| == 2 && From16(b) == v
    ensures v == 256 * (b[0] as int) + b[1]
  {
    [v / 256, v % 256]
  }

  function From16(b: seq<byte>): u16
    requires |b| == 2
  {
    var high: nat, low: nat := b[0], b[1];
    high * 256 + low
  }

  function U32(v: u32): (b: seq<byte>)
    ensures |b| == 4 && From32(b) == v
    ensures v == 16777216 * (b[0] as int) + 65536 * (b[1] as int) + 256 * (b[2] as int) + b[3]
  {
    U16(v / 65536) + U16(v % 65536)
  }

  function From32(b: seq<byte>): u32
    requires |b| == 4
  {
    From16(b[..2]) * 65536 + From16(b[2..])
  }

  /** Two's complement. */
  function Unsigned16(v: i16): (u: u16)
    ensures Signed16(u) == v
  {
    if v < 0 then v + 65536 else v
  }

  function Signed16(u: u16): i16 { if u < 32768 then u else u - 65536 }

  function Unsigned32(v: i32): (u: u32)
    ensures Signed32(u) == v
  {
    if v < 0 then v + 4294967296 else v
  }

  function Signed32(u: u32): i32 { if u < 2147483648 then u else u - 4294967296 }

  function Flag(b: bool): byte { if b then 1 else 0 }

  // ------------------------------------------------------------------ taking bytes off a stream

  /** What a parser makes of a stream: a value and the bytes it leaves, or not enough bytes. */
  datatype Parsed<T> = Short | Got(value: T, rest: seq<byte>) {
    predicate IsFailure() { Short? }

    function PropagateFailure<U>(): Parsed<U>
      requires IsFailure()
    {
      Short
    }

    function Extract(): (T, seq<byte>)
      requires !IsFailure()
    {
      (value, rest)
    }
  }

  function Take(n: nat, s: seq<byte>): (p: Parsed<seq<byte>>)
    ensures p.Got? ==> |p.value| == n && s == p.value + p.rest
  {
    if |s| < n then Short else Got(s[..n], s[n..])
  }

  function Take8(s: seq<byte>): (p: Parsed<byte>)
    ensures p.Got? ==> s == [p.value] + p.rest
  {
    if |s| < 1 then Short else Got(s[0], s[1..])
  }

  function Take16(s: seq<byte>): (p: Parsed<u16>)
    ensures p.Got? ==> |p.rest| + 2 == |s|
  {
    if |s| < 2 then Short else Got(From16(s[..2]), s[2..])
  }

  function Take32(s: seq<byte>): (p: Parsed<u32>)
    ensures p.Got? ==> |p.rest| + 4 == |s|
  {
    if |s| < 4 then Short else Got(From32(s[..4]), s[4..])
  }

  function TakeName(s: seq<byte>): (p: Parsed<seq<byte>>)
    ensures p.Got? ==> |p.rest| < |s|
  {
    var (len, s) :- Take16(s);
    Take(len, s)
  }

  // ------------------------------------------------------------------ putting them onto a stream

  function Put8(v: byte, rest: seq<byte>): seq<byte> { [v] + rest }

  function Put16(v: u16, rest: seq<byte>): seq<byte> { U16(v) + rest }

  function Put32(v: u32, rest: seq<byte>): seq<byte> { U32(v) + rest }

  /** A length in 16 bits, cut off if need be, and all the bytes of the name, unless the length says
      zero. */
  function PutName(name: seq<byte>, rest: seq<byte>): seq<byte> {
    var len := |name| % 65536;
    Put16(len, (if len > 0 then name else []) + rest)
  }

  lemma TakesPut(v8: byte, v16: u16, v32: u32, rest: seq<byte>)
    ensures Take8(Put8(v8, rest)) == Got(v8, rest)
    ensures Take16(Put16(v16, rest)) == Got(v16, rest)
    ensures Take32(Put32(v32, rest)) == Got(v32, rest)
  {
  }

  /** A name survives the wire, whatever follows it, exactly when its length fits in 16 bits. */
  lemma NamesFit(name: seq<byte>)
    ensures (forall rest :: TakeName(PutName(name, rest)) == Got(name, rest)) <==> |name| < 65536
  {
    if |name| < 65536 {
      forall rest
        ensures TakeName(PutName(name, rest)) == Got(name, rest)
      {
        TakesName(name, rest);
      }
    } else {
      var got := TakeName(PutName(name, []));
      if got.Got? {
        assert |got.value| <= 65535;
      }
    }
  }

  lemma TakesName(name: seq<byte>, rest: seq<byte>)
    requires |name| < 65536
    ensures TakeName(PutName(name, rest)) == Got(name, rest)
  {
    assert Take16(PutName(name, rest)) == Got(|name|, name + rest);
  }

  // ------------------------------------------------------------------ lists

  function PutAll<T>(xs: seq<T>, put: (T, seq<byte>) -> seq<byte>, rest: seq<byte>): seq<byte> {
    if xs == [] then rest else put(xs[0], PutAll(xs[1..], put, rest))
  }

  /** The count in one byte, cut off if need be, and then every element. */
  function PutList<T>(xs: seq<T>, put: (T, seq<byte>) -> seq<byte>, rest: seq<byte>): seq<byte> {
    Put8(|xs| % 256, PutAll(xs, put, rest))
  }

  function Times<T>(n: nat, take: seq<byte> -> Parsed<T>, s: seq<byte>): Parsed<seq<T>> {
    if n == 0 then Got([], s)
    else
      var (x, s) :- take(s);
      var (xs, s) :- Times(n - 1, take, s);
      Got([x] + xs, s)
  }

  function TakeList<T>(take: seq<byte> -> Parsed<T>, s: seq<byte>): Parsed<seq<T>> {
    var (n, s) :- Take8(s);
    Times(n, take, s)
  }

  function Map<T, U>(xs: seq<T>, f: T -> U): (ys: seq<U>)
    ensures |ys| == |xs| && forall i | 0 <= i < |xs| :: ys[i] == f(xs[i])
  {
    if xs == [] then [] else [f(xs[0])] + Map(xs[1..], f)
  }

  /** Whatever follows it, the element is taken off as `seen`. */
  ghost predicate Survives<T, U>(x: T, put: (T, seq<byte>) -> seq<byte>, take: seq<byte> -> Parsed<U>, seen: U) {
    forall rest :: take(put(x, rest)) == Got(seen, rest)
  }

  lemma {:induction false} TimesTakesAll<T, U>(xs: seq<T>, put: (T, seq<byte>) -> seq<byte>, take: seq<byte> -> Parsed<U>,
                                               see: T -> U, rest: seq<byte>)
    requires forall x | x in xs :: Survives(x, put, take, see(x))
    ensures Times(|xs|, take, PutAll(xs, put, rest)) == Got(Map(xs, see), rest)
  {
    if xs != [] {
      assert xs[0] in xs && Survives(xs[0], put, take, see(xs[0]));
      assert take(put(xs[0], PutAll(xs[1..], put, rest))) == Got(see(xs[0]), PutAll(xs[1..], put, rest));
      TimesTakesAll(xs[1..], put, take, see, rest);
    }
  }

  lemma TakesList<T, U>(xs: seq<T>, put: (T, seq<byte>) -> seq<byte>, take: seq<byte> -> Parsed<U>, see: T -> U, rest: seq<byte>)
    requires |xs| < 256 && forall x | x in xs :: Survives(x, put, take, see(x))
    ensures TakeList(take, PutList(xs, put, rest)) == Got(Map(xs, see), rest)
  {
    var body := PutAll(xs, put, rest);
    assert PutList(xs, put, rest) == Put8(|xs|, body);
    TakesPut(|xs|, 0, 0, body);
    TimesTakesAll(xs, put, take, see, rest);
  }

  lemma TakesSameList<T>(xs: seq<T>, put: (T, seq<byte>) -> seq<byte>, take: seq<byte> -> Parsed<T>, rest: seq<byte>)
    requires |xs| < 256 && forall x | x in xs :: Survives(x, put, take, x)
    ensures TakeList(take, PutList(xs, put, rest)) == Got(xs, rest)
  {
    var same := (x: T) => x;
    TakesList(xs, put, take, same, rest);
    assert Map(xs, same) == xs;
  }

  lemma {:induction false} TimesTakesThatMany<T>(n: nat, take: seq<byte> -> Parsed<T>, s: seq<byte>)
    requires Times(n, take, s).Got?
    ensures |Times(n, take, s).value| == n
  {
    if n > 0 {
      TimesTakesThatMany(n - 1, take, take(s).rest);
    }
  }

  /** A list survives the wire exactly when its count fits in one byte. */
  lemma ListsFit<T, U>(xs: seq<T>, put: (T, seq<byte>) -> seq<byte>, take: seq<byte> -> Parsed<U>, see: T -> U)
    requires forall x | x in xs :: Survives(x, put, take, see(x))
    ensures (forall rest :: TakeList(take, PutList(xs, put, rest)) == Got(Map(xs, see), rest)) <==> |xs| < 256
  {
    if |xs| < 256 {
      forall rest
        ensures TakeList(take, PutList(xs, put, rest)) == Got(Map(xs, see), rest)
      {
        TakesList(xs, put, take, see, rest);
      }
    } else {
      var s := PutList(xs, put, []);
      assert Take8(s) == Got(|xs| % 256, PutAll(xs, put, []));
      if TakeList(take, s).Got? {
        TimesTakesThatMany(|xs| % 256, take, PutAll(xs, put, []));
      }
    }
  }

  // ------------------------------------------------------------------ no parser gives bytes back

  lemma {:induction false} TimesShrinks<T>(n: nat, take: seq<byte> -> Parsed<T>, s: seq<byte>)
    requires forall b :: take(b).Got? ==> |take(b).rest| <= |b|
    ensures Times(n, take, s).Got? ==> |Times(n, take, s).rest| <= |s|
  {
    if n > 0 && take(s).Got? {
      TimesShrinks(n - 1, take, take(s).rest);
    }
  }

  lemma ListShrinks<T>(take: seq<byte> -> Parsed<T>, s: seq<byte>)
    requires forall b :: take(b).Got? ==> |take(b).rest| <= |b|
    ensures TakeList(take, s).Got? ==> |TakeList(take, s).rest| <= |s|
  {
    if Take8(s).Got? {
      TimesShrinks(Take8(s).value, take, Take8(s).rest);
    }
  }

  // ------------------------------------------------------------------ one element at a time

  /** The elements taken so far, and `n` more. */
  ghost function Completed<T>(taken: seq<T>, n: nat, take: seq<byte> -> Parsed<T>, s: seq<byte>): Parsed<seq<T>> {
    var left := Times(n, take, s);
    if left.Got? then Got(taken + left.value, left.rest) else Short
  }

  lemma NoneTaken<T>(n: nat, take: seq<byte> -> Parsed<T>, s: seq<byte>)
    ensures Completed([], n, take, s) == Times(n, take, s)
  {
    if Times(n, take, s).Got? {
      assert [] + Times(n, take, s).value == Times(n, take, s).value;
    }
  }

  lemma OneMoreIsThere<T>(taken: seq<T>, n: nat, take: seq<byte> -> Parsed<T>, s: seq<byte>)
    requires n > 0 && Completed(taken, n, take, s).Got?
    ensures take(s).Got?
  {
  }

  lemma OneMoreTaken<T>(taken: seq<T>, n: nat, m: nat, take: seq<byte> -> Parsed<T>, s: seq<byte>, x: T, s': seq<byte>)
    requires n == m + 1 && take(s) == Got(x, s')
    ensures Completed(taken + [x], m, take, s') == Completed(taken, n, take, s)
  {
    if Times(m, take, s').Got? {
      var more := Times(m, take, s').value;
      assert taken + ([x] + more) == taken + [x] + more;
    }
  }

  lemma AllTaken<T>(taken: seq<T>, take: seq<byte> -> Parsed<T>, s: seq<byte>)
    ensures Completed(taken, 0, take, s) == Got(taken, s)
  {
    assert taken + [] == taken;
  }

  // ------------------------------------------------------------------ one piece behind the other

  /** What is put in front of more bytes is put in front of their beginning. */
  ghost predicate Grows<T(!new)>(put: (T, seq<byte>) -> seq<byte>) {
    forall x, a, b :: put(x, a + b) == put(x, a) + b
  }

  lemma FieldsGrow()
    ensures Grows(Put8) && Grows(Put16) && Grows(Put32) && Grows(PutName)
  {
    forall v: byte, a: seq<byte>, b: seq<byte>
      ensures Put8(v, a + b) == Put8(v, a) + b
    {
    }
    forall v: u16, a: seq<byte>, b: seq<byte>
      ensures Put16(v, a + b) == Put16(v, a) + b
    {
      Associative(U16(v), a, b);
    }
    forall v: u32, a: seq<byte>, b: seq<byte>
      ensures Put32(v, a + b) == Put32(v, a) + b
    {
      Associative(U32(v), a, b);
    }
    forall name: seq<byte>, a: seq<byte>, b: seq<byte>
      ensures PutName(name, a + b) == PutName(name, a) + b
    {
      var len := |name| % 65536;
      var sent := if len > 0 then name else [];
      Associative(sent, a, b);
      Associative(U16(len), sent + a, b);
    }
  }

  lemma {:induction false} ElementsGrow<T(!new)>(xs: seq<T>, put: (T, seq<byte>) -> seq<byte>, a: seq<byte>, b: seq<byte>)
    requires Grows(put)
    ensures PutAll(xs, put, a + b) == PutAll(xs, put, a) + b
  {
    if xs != [] {
      ElementsGrow(xs[1..], put, a, b);
    }
  }

  lemma ListGrows<T(!new)>(xs: seq<T>, put: (T, seq<byte>) -> seq<byte>, a: seq<byte>, b: seq<byte>)
    requires Grows(put)
    ensures PutList(xs, put, a + b) == PutList(xs, put, a) + b
  {
    ElementsGrow(xs, put, a, b);
    Associative([|xs| % 256], PutAll(xs, put, a), b);
  }
}
