/**
 What the notify thread sends: the payload buffer, the counter in its first
 four bytes, and the payload of segmented (TP) notifications.
 */
module Notifier {
  import opened Division

  const TWO32 := 0x1_0000_0000
  const LAST := 0xffff_ffff
  /** How many different counter values there are: 1 .. 0xfffffffe. */
  const PERIOD := TWO32 - 2

  // ---- the counter on the wire ----

  newtype byte = x: int | 0 <= x < 256

  /** (c & (0xff << 8 * k)) >> (8 * k) for an unsigned c: its digit k to the base 256. */
  function Digit(c: nat, k: nat): byte
    requires k < 4
  {
    if k == 0 then (c % 256) as byte else Digit(c / 256, k - 1)
  }

  function Encode(c: nat): seq<byte> { [Digit(c, 0), Digit(c, 1), Digit(c, 2), Digit(c, 3)] }

  /** Little endian. */
  function Decode(message: seq<byte>): nat
    requires |message| >= 4
  {
    message[0] as nat + 0x100 * message[1] as nat + 0x1_0000 * message[2] as nat + 0x100_0000 * message[3] as nat
  }

  function Zeros(n: nat): seq<byte> { seq(n, _ => 0) }

  /** A message of the given size that carries v. */
  function Message(size: nat, v: nat): seq<byte>
    requires 4 <= size
  {
    Encode(v) + Zeros(size - 4)
  }

  /** What a receiver reads from it; different values give different messages. */
  lemma MessageCarries(size: nat, v: nat)
    requires 4 <= size && v < TWO32
    ensures |Message(size, v)| == size && Decode(Message(size, v)) == v
    ensures Message(size, v)[4..] == Zeros(size - 4)
  {
    var q := v / 256;
    var r := q / 256;
    assert Digit(v, 1) == (q % 256) as byte;
    assert Digit(v, 2) == Digit(q, 1) == (r % 256) as byte;
    assert Digit(v, 3) == Digit(q, 2) == Digit(r, 1) == (r / 256) as byte;
    assert v == 256 * q + v % 256 && q == 256 * r + q % 256 && r == 256 * (r / 256) + r % 256;
  }

  // ---- the counter over a run ----

  /** The value sent after u notifications that were not frozen. */
  function Value(u: nat): nat { 1 + u % PERIOD }

  /** Mode 1 freezes the counter. */
  function Unfrozen(modes: seq<byte>): nat {
    if modes == [] then 0
    else Unfrozen(modes[..|modes| - 1]) + if modes[|modes| - 1] == 1 then 0 else 1
  }

  /** The value of notification j under these modes. */
  function ValueAt(modes: seq<byte>, j: nat): nat
    requires j <= |modes|
  {
    Value(Unfrozen(modes[..j]))
  }

  function Wrapped(ctr: nat): nat { if ctr == LAST then 1 else ctr }

  lemma NextValue(u: nat)
    ensures Wrapped(Value(u) + 1) == Value(u + 1)
  {
    if u % PERIOD == PERIOD - 1 {
      assert u + 1 == PERIOD * (u / PERIOD + 1);
      assert (u + 1) % PERIOD == 0;
    } else {
      assert u + 1 == PERIOD * (u / PERIOD) + (u % PERIOD + 1);
      assert (u + 1) % PERIOD == u % PERIOD + 1;
    }
  }

  /** 0 and 0xffffffff are never sent; the next value is the same, the successor, or 1 after the last. */
  lemma SuccessiveValues(modes: seq<byte>, j: nat)
    requires j < |modes|
    ensures var v, next := ValueAt(modes, j), ValueAt(modes, j + 1);
            && 0 < v < LAST
            && (modes[j] == 1 ==> next == v)
            && (modes[j] != 1 ==> next == if v == LAST - 1 then 1 else v + 1)
  {
    assert modes[..j + 1][..j] == modes[..j];
    NextValue(Unfrozen(modes[..j]));
  }

  /** Without frozen notifications a value comes back after exactly PERIOD of them. */
  lemma ValuesRepeat(u: nat, w: nat)
    requires u <= w
    ensures Value(u) == Value(w) <==> (w - u) % PERIOD == 0
  {
    var q, r := u / PERIOD, w / PERIOD;
    assert u == PERIOD * q + u % PERIOD && w == PERIOD * r + w % PERIOD;
    if Value(u) == Value(w) {
      assert w - u == PERIOD * (r - q);
    }
    if (w - u) % PERIOD == 0 {
      SameRemainder(u, w, (w - u) / PERIOD);
    }
  }

  lemma SameRemainder(u: nat, w: nat, m: nat)
    requires w == u + PERIOD * m
    ensures w % PERIOD == u % PERIOD
  {
    assert w == PERIOD * (u / PERIOD + m) + u % PERIOD;
  }

  // ---- the payload of segmented notifications ----

  function Resize(v: seq<byte>, n: nat): seq<byte> {
    if n <= |v| then v[..n] else v + Zeros(n - |v|)
  }

  lemma NextProduct(i: nat, s: nat)
    ensures ((i * s) % TWO32 + s) % TWO32 == ((i + 1) * s) % TWO32
  {
    var q := (i * s) / TWO32;
    assert (i + 1) * s == i * s + s;
    ModShift((i * s) % TWO32 + s, q);
  }

  lemma ModShift(x: nat, q: nat)
    ensures (TWO32 * q + x) % TWO32 == x % TWO32
  {
    var k := x / TWO32;
    assert TWO32 * q + x == TWO32 * (q + k) + x % TWO32;
  }

  /** The resize loop gives n * s zero bytes; the sizes are computed in 32 bits. */
  method GeneratePayload(fragments: nat, segment: nat) returns (data: seq<byte>)
    requires fragments < TWO32 && segment < TWO32
    ensures data == Zeros((fragments * segment) % TWO32)
  {
    data := [];
    var i := 0;
    while i < fragments
      invariant i <= fragments
      invariant data == Zeros((i * segment) % TWO32)
    {
      NextProduct(i, segment);
      data := Resize(data, ((i * segment) % TWO32 + segment) % TWO32);
      i := i + 1;
    }
  }

  /** The fragments for d bytes when a datagram takes m. */
  function Fragments(d: nat, m: nat): nat
    requires m > 0
  {
    (d / m + 1) % 0x1_0000
  }

  function SegmentedSize(d: nat, m: nat): nat
    requires m > 160
  {
    var segment: nat := m - 160;
    Fragments(d, m) * segment
  }

  lemma SegmentedSizeIs(d: nat, m: nat, q: nat, r: nat)
    requires 160 < m < 0x1_0000 && d < 0x1_0000 && r < m && d == q * m + r
    ensures d / m == q && d % m == r
    ensures SegmentedSize(d, m) == q * m + m - 160 * (q + 1)
  {
    QuotientIs(d, m, q, r);
    MulMonotone(q, 160, m);
    assert Fragments(d, m) == q + 1;
    Expand(q, m);
  }

  lemma Expand(q: nat, m: nat)
    requires m >= 160
    ensures (q + 1) * (m - 160) == q * m + m - 160 * (q + 1)
  {
  }

  /** The segmented payload is long enough exactly if what 160 bytes per fragment cost fits into the last one. */
  lemma PayloadReaches(d: nat, m: nat)
    requires 160 < m < 0x1_0000 && d < 0x1_0000
    ensures SegmentedSize(d, m) < TWO32
    ensures d <= SegmentedSize(d, m) <==> d % m + 160 * (d / m + 1) <= m
    ensures m - 160 < d < m ==> SegmentedSize(d, m) < d
  {
    DivMod(d, m);
    SegmentedSizeIs(d, m, d / m, d % m);
    if d < m { QuotientIs(d, m, 0, d); }
  }

  lemma SegmentedFits(d: nat, m: nat)
    requires 160 < m < 0x1_0000 && d < 0x1_0000
    ensures Fragments(d, m) < TWO32 && (Fragments(d, m) * (m - 160)) % TWO32 == SegmentedSize(d, m)
  {
    PayloadReaches(d, m);
  }

  // ---- the sending loop ----

  class NotifyLoop {
    const dataSize: nat
    const useTp: bool
    var data: array<byte>
    var segmented: seq<byte>
    var ctr: nat
    var sent: seq<seq<byte>>

    ghost predicate Valid()
      reads this, data
    {
      && 0 < ctr < TWO32
      && data.Length == dataSize
      && (!useTp ==> 4 <= dataSize && forall k :: 4 <= k < dataSize ==> data[k] == 0)
    }

    /** Before the first notification; m is the limit for an unsegmented message. */
    constructor (size: nat, m: nat)
      requires 160 < m < 0x1_0000 && 4 <= size < 0x1_0000
      ensures Valid() && fresh(data)
      ensures ctr == 1 && sent == [] && dataSize == size && (useTp <==> size > m - 160)
      ensures useTp ==> segmented == Zeros(SegmentedSize(size, m))
    {
      dataSize := size;
      useTp := size > m - 160;
      ctr := 1;
      sent := [];
      data := new byte[size];
      segmented := [];
      new;
      if !useTp {
        var i := 0;
        while i < size
          invariant i <= size && ctr == 1 && sent == [] && data.Length == size && fresh(data)
          invariant forall k :: 0 <= k < i ==> data[k] == 0
        {
          data[i] := 0;
          i := i + 1;
        }
      } else {
        SegmentedFits(size, m);
        segmented := GeneratePayload(Fragments(size, m), m - 160);
      }
    }

    /** The counter goes into the first four bytes. */
    method Fill(c: nat)
      requires 4 <= data.Length
      modifies data
      ensures data[..4] == Encode(c) && data[4..] == old(data[4..])
    {
      data[0] := Digit(c, 0);
      data[1] := Digit(c, 1);
      data[2] := Digit(c, 2);
      data[3] := Digit(c, 3);
    }

    method SetCounter() returns (message: seq<byte>)
      requires Valid() && !useTp
      modifies data
      ensures Valid() && message == Message(dataSize, ctr)
    {
      Fill(ctr);
      message := data[..];
      forall k | 4 <= k < dataSize ensures data[k] == 0 {
        assert data[4..][k - 4] == old(data[4..])[k - 4];
      }
      assert message == message[..4] + message[4..];
    }

    /** One turn of the sending loop, the operation mode being `mode`. */
    method Send(mode: byte)
      requires Valid()
      modifies this`ctr, this`sent, data
      ensures Valid()
      ensures sent == old(sent) + [if useTp then segmented else Message(dataSize, Wrapped(old(ctr)))]
      ensures ctr == Wrapped(old(ctr)) + if mode == 1 then 0 else 1
    {
      if ctr == LAST {
        ctr := 1;
      }
      if !useTp {
        var message := SetCounter();
        sent := sent + [message];
      } else {
        sent := sent + [segmented];
      }
      if mode != 1 {
        ctr := (ctr + 1) % TWO32;
      }
    }

    /** The counter law: notification j carries ValueAt(modes, j), whatever the modes are. */
    method SendAll(modes: seq<byte>)
      requires Valid() && ctr == 1 && sent == []
      modifies this`ctr, this`sent, data
      ensures Valid() && |sent| == |modes|
      ensures !useTp ==> forall j :: 0 <= j < |modes| ==> sent[j] == Message(dataSize, ValueAt(modes, j))
      ensures !useTp ==> 4 <= dataSize && forall j :: 0 <= j < |modes| ==>
                |sent[j]| == dataSize && Decode(sent[j]) == ValueAt(modes, j)
      ensures useTp ==> forall j :: 0 <= j < |modes| ==> sent[j] == segmented
    {
      var j := 0;
      while j < |modes|
        invariant 0 <= j <= |modes| && Valid() && |sent| == j
        invariant Wrapped(ctr) == ValueAt(modes, j)
        invariant !useTp ==> forall k :: 0 <= k < j ==> sent[k] == Message(dataSize, ValueAt(modes, k))
        invariant useTp ==> forall k :: 0 <= k < j ==> sent[k] == segmented
      {
        SuccessiveValues(modes, j);
        Send(modes[j]);
        j := j + 1;
      }
      if !useTp {
        forall k | 0 <= k < |modes| {
          MessageCarries(dataSize, ValueAt(modes, k));
        }
      }
    }
  }
}
