/** Values shared by every part of the broker model: bytes, text, quality of service. */
module Basics {

  datatype Option<+T> = None | Some(value: T) {
    predicate IsFailure() { None? }
    function PropagateFailure<U>(): Option<U> requires None? { None }
    function Extract(): T requires Some? { value }
  }

  type Byte = b: int | 0 <= b < 0x100
  type U16 = n: int | 0 <= n < 0x1_0000
  type U32 = n: int | 0 <= n < 0x1_0000_0000
  type U64 = n: int | 0 <= n < 0x1_0000_0000_0000_0000

  const U32_SIZE: int := 0x1_0000_0000
  const U64_SIZE: int := 0x1_0000_0000_0000_0000

  type Bytes = seq<Byte>

  /** Text is held as its UTF-8 bytes, the unit in which the broker splits, compares and stores it. */
  type Text = Bytes

  const SLASH: Byte := 47
  const HASH: Byte := 35
  const PLUS: Byte := 43
  const DOLLAR: Byte := 36
  const NUL: Byte := 0

  datatype QoS = AtMostOnce | AtLeastOnce | ExactlyOnce {
    function Level(): (n: Byte)
      ensures n <= 2
    {
      match this
      case AtMostOnce => 0
      case AtLeastOnce => 1
      case ExactlyOnce => 2
    }

    static function FromByte(b: Byte): (q: Option<QoS>)
    {
      if b == 0 then Some(AtMostOnce)
      else if b == 1 then Some(AtLeastOnce)
      else if b == 2 then Some(ExactlyOnce)
      else None
    }
  }

  function MinQoS(a: QoS, b: QoS): (q: QoS)
    ensures q == a || q == b
    ensures q.Level() <= a.Level() && q.Level() <= b.Level()
  {
    if a.Level() <= b.Level() then a else b
  }

  function MaxQoS(a: QoS, b: QoS): (q: QoS)
    ensures q == a || q == b
    ensures a.Level() <= q.Level() && b.Level() <= q.Level()
  {
    if a.Level() <= b.Level() then b else a
  }

  type ClientId = nat

  datatype Message = Message(topic: Text, payload: Bytes, qos: QoS, retain: bool)

  predicate StartsWith(s: Text, prefix: Text) {
    |prefix| <= |s| && s[..|prefix|] == prefix
  }

  /** The two sides of the first separator in `s`, if there is one. */
  function SplitOnce(s: Text, sep: Byte): (r: Option<(Text, Text)>)
    ensures r.Some? ==> s == r.value.0 + [sep] + r.value.1 && sep !in r.value.0
    ensures r.None? ==> sep !in s
  {
    if s == [] then None
    else if s[0] == sep then Some(([], s[1..]))
    else
      match SplitOnce(s[1..], sep)
      case None => None
      case Some(p) => Some(([s[0]] + p.0, p.1))
  }

  /** Cutting at a separator is the only way to read `head sep tail` when `head` has no separator. */
  lemma {:induction false} SplitOnceOfJoined(head: Text, sep: Byte, tail: Text)
    requires sep !in head
    ensures SplitOnce(head + [sep] + tail, sep) == Some((head, tail))
  {
    var s := head + [sep] + tail;
    if head == [] {
      assert s[1..] == tail;
    } else {
      assert s[1..] == head[1..] + [sep] + tail;
      SplitOnceOfJoined(head[1..], sep, tail);
      assert [head[0]] + head[1..] == head;
    }
  }
}
