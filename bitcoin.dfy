/** The parts of the `bitcoin` crate the core relies on: transactions as
    plain values, networks, and the byte layout of an OP_RETURN script. */
module Bitcoin {
  import opened Common

  type Script = seq<byte>
  type Txid = seq<byte>

  const OP_PUSHDATA1: byte := 0x4c
  const OP_PUSHDATA2: byte := 0x4d
  const OP_PUSHDATA4: byte := 0x4e
  const OP_RETURN: byte := 0x6a

  /** `Sequence::ZERO` and `Sequence::MAX`. */
  const SEQUENCE_ZERO: nat := 0
  const SEQUENCE_MAX: nat := 0xFFFF_FFFF

  datatype OutPoint = OutPoint(txid: Txid, vout: nat)
  datatype TxIn = TxIn(previousOutput: OutPoint, scriptSig: Script, sequence: nat, witnessStack: seq<seq<byte>>)
  datatype TxOut = TxOut(value: nat, scriptPubkey: Script)
  datatype Transaction = Transaction(version: int, lockTime: nat, inputs: seq<TxIn>, outputs: seq<TxOut>)

  datatype Network = Bitcoin | Testnet | Signet | Regtest

  /** The `Display` form of a network, used in error messages. */
  function NetworkName(n: Network): string {
    match n
    case Bitcoin => "bitcoin"
    case Testnet => "testnet"
    case Signet => "signet"
    case Regtest => "regtest"
  }

  /** The `width` low-order bytes of `n`, least significant first: the
      bytes read back as `n` truncated to `width` bytes. */
  function LittleEndian(n: nat, width: nat): (r: seq<byte>)
    ensures |r| == width
    ensures FromLittleEndian(r) == n % Pow256(width)
  {
    if width == 0 then []
    else
      var r := [n % 256] + LittleEndian(n / 256, width - 1);
      assert r[1..] == LittleEndian(n / 256, width - 1);
      ModOfProduct(n, Pow256(width - 1));
      r
  }

  /** The value of little-endian bytes. */
  function FromLittleEndian(b: seq<byte>): nat {
    if b == [] then 0 else b[0] + 256 * FromLittleEndian(b[1..])
  }

  /** Dropping the low byte and truncating to `m` bytes' worth commutes
      with truncating to `256 * m`. */
  lemma ModOfProduct(n: nat, m: nat)
    requires m >= 1
    ensures n % (256 * m) == n % 256 + 256 * ((n / 256) % m)
  {
    var q := n / 256;
    assert n == 256 * q + n % 256;
    assert q == m * (q / m) + q % m;
    assert n == (256 * m) * (q / m) + (n % 256 + 256 * (q % m));
    ModUnique(n, 256 * m, q / m, n % 256 + 256 * (q % m));
  }

  /** The remainder is the only value below the divisor that completes a
      multiple of it to `n`. */
  lemma ModUnique(n: nat, d: nat, k: nat, r: nat)
    requires n == d * k + r && r < d
    ensures n % d == r
  {
    var e: int := k - n / d;
    assert d * e == n % d - r by {
      assert n == d * (n / d) + n % d;
      assert d * e == d * k - d * (n / d);
    }
    MultipleBounds(d, e);
  }

  /** A nonzero multiple of `d` is at least `d` away from zero. */
  lemma MultipleBounds(d: nat, e: int)
    ensures e >= 1 ==> d * e >= d
    ensures e <= -1 ==> d * e + d <= 0
  {
    if e >= 1 {
      assert d * e == d * (e - 1) + d;
      assert d * (e - 1) >= 0;
    } else if e <= -1 {
      assert d * e == -(d * (-1 - e)) - d;
      assert d * (-1 - e) >= 0;
    }
  }

  function Pow256(width: nat): (r: nat)
    ensures r >= 1
  {
    if width == 0 then 1 else 256 * Pow256(width - 1)
  }

  /** `Builder::push_slice`: the shortest push of `data` (rust-bitcoin panics
      for 4 GiB and more, hence the precondition): the length itself below
      76, otherwise the narrowest PUSHDATA opcode whose 1, 2 or 4 length
      bytes hold the length. */
  function PushSlice(data: seq<byte>): (s: Script)
    requires |data| < U32_MODULUS
    ensures |data| < OP_PUSHDATA1 as int ==> s == [|data|] + data
    ensures OP_PUSHDATA1 as int <= |data| < 0x100 ==> |s| == 2 + |data| && s[0] == OP_PUSHDATA1
    ensures 0x100 <= |data| < 0x1_0000 ==> |s| == 3 + |data| && s[0] == OP_PUSHDATA2
    ensures 0x1_0000 <= |data| ==> |s| == 5 + |data| && s[0] == OP_PUSHDATA4
    ensures ReadPush(s) == Some(data)
  {
    var n := |data|;
    var s :=
      if n < OP_PUSHDATA1 as int then [n] + data
      else if n < 0x100 then [OP_PUSHDATA1] + LittleEndian(n, 1) + data
      else if n < 0x1_0000 then [OP_PUSHDATA2] + LittleEndian(n, 2) + data
      else [OP_PUSHDATA4] + LittleEndian(n, 4) + data;
    ReadPushOf(data);
    s
  }

  /** Reads the single push that makes up the whole of `s`. */
  function ReadPush(s: Script): Option<seq<byte>> {
    if s == [] then None
    else
      var width := if s[0] == OP_PUSHDATA1 then 1 else if s[0] == OP_PUSHDATA2 then 2
                   else if s[0] == OP_PUSHDATA4 then 4 else 0;
      if width == 0 && s[0] >= OP_PUSHDATA1 then None
      else if |s| < 1 + width then None
      else
        var n := if width == 0 then s[0] as nat else FromLittleEndian(s[1..1 + width]);
        if |s| == 1 + width + n then Some(s[1 + width..]) else None
  }

  /** `width` little-endian bytes hold less than 256^width. */
  lemma {:induction false} FromLittleEndianBound(b: seq<byte>)
    ensures FromLittleEndian(b) < Pow256(|b|)
  {
    if b != [] {
      FromLittleEndianBound(b[1..]);
    }
  }

  /** No single push of `data` is shorter than the one `PushSlice` builds. */
  lemma PushSliceShortest(data: seq<byte>, t: Script)
    requires |data| < U32_MODULUS
    requires ReadPush(t) == Some(data)
    ensures |PushSlice(data)| <= |t|
  {
    var width := if t[0] == OP_PUSHDATA1 then 1 else if t[0] == OP_PUSHDATA2 then 2
                 else if t[0] == OP_PUSHDATA4 then 4 else 0;
    assert |t| == 1 + width + |data|;
    if width > 0 {
      FromLittleEndianBound(t[1..1 + width]);
      assert Pow256(1) == 0x100 && Pow256(2) == 0x1_0000;
    }
  }

  lemma ReadPushOf(data: seq<byte>)
    requires |data| < U32_MODULUS
    ensures var n := |data|;
      && (n < OP_PUSHDATA1 as int ==> ReadPush([n] + data) == Some(data))
      && (OP_PUSHDATA1 as int <= n < 0x100 ==> ReadPush([OP_PUSHDATA1] + LittleEndian(n, 1) + data) == Some(data))
      && (0x100 <= n < 0x1_0000 ==> ReadPush([OP_PUSHDATA2] + LittleEndian(n, 2) + data) == Some(data))
      && (0x1_0000 <= n ==> ReadPush([OP_PUSHDATA4] + LittleEndian(n, 4) + data) == Some(data))
  {
    var n := |data|;
    if n < OP_PUSHDATA1 as int {
      assert ([n] + data)[1..] == data;
    } else {
      var w := if n < 0x100 then 1 else if n < 0x1_0000 then 2 else 4;
      var op: byte := if w == 1 then OP_PUSHDATA1 else if w == 2 then OP_PUSHDATA2 else OP_PUSHDATA4;
      assert Pow256(1) == 0x100 && Pow256(2) == 0x1_0000 && Pow256(4) == U32_MODULUS;
      var s := [op] + LittleEndian(n, w) + data;
      assert s[1..1 + w] == LittleEndian(n, w);
      assert s[1 + w..] == data;
    }
  }

  /** `Script::new_op_return`: OP_RETURN followed by one push of `data`. */
  function NewOpReturn(data: seq<byte>): (s: Script)
    requires |data| < U32_MODULUS
    ensures IsOpReturn(s) && ReadPush(s[1..]) == Some(data)
    ensures |data| < OP_PUSHDATA1 as int ==> s == [OP_RETURN, |data|] + data
  {
    [OP_RETURN] + PushSlice(data)
  }

  /** `Script::is_op_return`: the first byte is OP_RETURN. */
  predicate IsOpReturn(s: Script) {
    |s| > 0 && s[0] == OP_RETURN
  }
}
