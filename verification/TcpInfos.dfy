/** The twelve TCP_INFO counters that are summed over connections. */
module TcpInfos {

  const TWO_TO_32: int := 0x1_0000_0000
  const TWO_TO_64: int := 0x1_0000_0000_0000_0000

  type uint32 = x: int | 0 <= x < TWO_TO_32
  type uint64 = x: int | 0 <= x < TWO_TO_64

  datatype TcpInfo = TcpInfo(
    bytesAcked: uint64, bytesReceived: uint64, bytesRetrans: uint64, bytesSent: uint64,
    dsackDups: uint32, fackets: uint32, lost: uint32, rcvOoopack: uint32,
    reordSeen: uint32, retrans: uint32, sacked: uint32, totalRetrans: uint32)

  const ZERO_INFO := TcpInfo(0, 0, 0, 0, 0, 0, 0, 0, 0, 0, 0, 0)

  datatype Counter =
    | BytesAcked | BytesReceived | BytesRetrans | BytesSent
    | DsackDups | Fackets | Lost | RcvOoopack
    | ReordSeen | Retrans | Sacked | TotalRetrans

  /** Byte counts are 64 bits wide, event counts 32. */
  function Modulus(k: Counter): nat {
    if Wide(k) then TWO_TO_64 else TWO_TO_32
  }

  predicate Wide(k: Counter) {
    k.BytesAcked? || k.BytesReceived? || k.BytesRetrans? || k.BytesSent?
  }

  /** A count reduced to the word of counter k. */
  function Wrap(k: Counter, x: int): (r: int)
    ensures 0 <= r < Modulus(k)
    ensures 0 <= x < Modulus(k) ==> r == x
  {
    if Wide(k) then x % TWO_TO_64 else x % TWO_TO_32
  }

  function Get(k: Counter, i: TcpInfo): (x: int)
    ensures 0 <= x < Modulus(k)
  {
    match k
    case BytesAcked => i.bytesAcked
    case BytesReceived => i.bytesReceived
    case BytesRetrans => i.bytesRetrans
    case BytesSent => i.bytesSent
    case DsackDups => i.dsackDups
    case Fackets => i.fackets
    case Lost => i.lost
    case RcvOoopack => i.rcvOoopack
    case ReordSeen => i.reordSeen
    case Retrans => i.retrans
    case Sacked => i.sacked
    case TotalRetrans => i.totalRetrans
  }

  /** The twelve counters are all of a record. */
  lemma {:induction false} CountersAreAll(a: TcpInfo, b: TcpInfo)
    ensures (forall k :: Get(k, a) == Get(k, b)) ==> a == b
  {
    if forall k :: Get(k, a) == Get(k, b) {
      assert Get(BytesAcked, a) == Get(BytesAcked, b) && Get(BytesReceived, a) == Get(BytesReceived, b);
      assert Get(BytesRetrans, a) == Get(BytesRetrans, b) && Get(BytesSent, a) == Get(BytesSent, b);
      assert Get(DsackDups, a) == Get(DsackDups, b) && Get(Fackets, a) == Get(Fackets, b);
      assert Get(Lost, a) == Get(Lost, b) && Get(RcvOoopack, a) == Get(RcvOoopack, b);
      assert Get(ReordSeen, a) == Get(ReordSeen, b) && Get(Retrans, a) == Get(Retrans, b);
      assert Get(Sacked, a) == Get(Sacked, b) && Get(TotalRetrans, a) == Get(TotalRetrans, b);
    }
  }

  function Add32(a: uint32, b: uint32): uint32 {
    (a + b) % TWO_TO_32
  }

  function Add64(a: uint64, b: uint64): uint64 {
    (a + b) % TWO_TO_64
  }

  /** addTcpInfo: every counter is the wrapped sum of that same counter. */
  function AddTcpInfo(a: TcpInfo, b: TcpInfo): (sum: TcpInfo)
    ensures forall k :: Get(k, sum) == Wrap(k, Get(k, a) + Get(k, b))
  {
    a.(bytesAcked := Add64(a.bytesAcked, b.bytesAcked),
       bytesReceived := Add64(a.bytesReceived, b.bytesReceived),
       bytesRetrans := Add64(a.bytesRetrans, b.bytesRetrans),
       bytesSent := Add64(a.bytesSent, b.bytesSent),
       dsackDups := Add32(a.dsackDups, b.dsackDups),
       fackets := Add32(a.fackets, b.fackets),
       lost := Add32(a.lost, b.lost),
       rcvOoopack := Add32(a.rcvOoopack, b.rcvOoopack),
       reordSeen := Add32(a.reordSeen, b.reordSeen),
       retrans := Add32(a.retrans, b.retrans),
       sacked := Add32(a.sacked, b.sacked),
       totalRetrans := Add32(a.totalRetrans, b.totalRetrans))
  }

  /** Wrapping first and adding later wraps to the same value. */
  lemma {:induction false} WrapAdd(x: int, y: int, k: Counter)
    ensures Wrap(k, Wrap(k, x) + y) == Wrap(k, x + y)
  {
    WrapAdd32(x, y);
    WrapAdd64(x, y);
  }

  lemma {:induction false} WrapAdd32(x: int, y: int)
    ensures (x % TWO_TO_32 + y) % TWO_TO_32 == (x + y) % TWO_TO_32
  {
  }

  lemma {:induction false} WrapAdd64(x: int, y: int)
    ensures (x % TWO_TO_64 + y) % TWO_TO_64 == (x + y) % TWO_TO_64
  {
  }

  /** Adding b to a record that already stands for x stands for x plus b. */
  lemma {:induction false} AddStands(a: TcpInfo, x: int, b: TcpInfo, k: Counter)
    requires Get(k, a) == Wrap(k, x)
    ensures Get(k, AddTcpInfo(a, b)) == Wrap(k, x + Get(k, b))
  {
    var sum := AddTcpInfo(a, b);
    assert Get(k, sum) == Wrap(k, Get(k, a) + Get(k, b));
    WrapAdd(x, Get(k, b), k);
  }
}
