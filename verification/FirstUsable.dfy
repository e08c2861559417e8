/** The first usable address of a subnet, computed on the bytes of the address. */
module FirstUsable {
  import opened Options
  import opened Powers
  import opened PeerConfig
  import opened PeerAlloc
  import opened PrivateIP

  type Octet = b: int | 0 <= b < 256
  type Octets = seq<Octet>

  /** The number that the bytes spell, most significant first. */
  function Number(s: Octets): nat {
    if s == [] then 0 else Number(s[..|s| - 1]) * 256 + s[|s| - 1]
  }

  function Pow256(n: nat): (p: nat)
    ensures p > 0
  {
    if n == 0 then 1 else 256 * Pow256(n - 1)
  }

  /** Adding one with carry, from the last byte on. */
  function Inc(s: Octets): (r: Octets)
    ensures |r| == |s|
  {
    if s == [] then []
    else if s[|s| - 1] < 255 then s[..|s| - 1] + [s[|s| - 1] + 1]
    else Inc(s[..|s| - 1]) + [0]
  }

  lemma {:induction false} NumberBound(s: Octets)
    ensures Number(s) < Pow256(|s|)
    decreases |s|
  {
    if s != [] {
      NumberBound(s[..|s| - 1]);
    }
  }

  /** Adding one to the bytes adds one to the number, and the greatest number becomes zero. */
  lemma {:induction false} IncIsPlusOne(s: Octets)
    ensures Number(Inc(s)) == if Number(s) + 1 == Pow256(|s|) then 0 else Number(s) + 1
    decreases |s|
  {
    if s != [] {
      var n := |s| - 1;
      var p := s[..n];
      NumberBound(p);
      var r := Inc(s);
      if s[n] < 255 {
        assert r[..n] == p;
      } else {
        IncIsPlusOne(p);
        assert r[..n] == Inc(p);
      }
    }
  }

  lemma {:induction false} IncCarry(s: Octets, i: nat)
    requires i < |s| && s[i] < 255 && forall k :: i < k < |s| ==> s[k] == 255
    ensures Inc(s)[..i] == s[..i] && Inc(s)[i] == s[i] + 1 && forall k :: i < k < |s| ==> Inc(s)[k] == 0
    decreases |s|
  {
    var n := |s| - 1;
    if i < n {
      IncCarry(s[..n], i);
      assert Inc(s) == Inc(s[..n]) + [0];
      assert Inc(s)[..i] == Inc(s[..n])[..i] && s[..n][..i] == s[..i];
    }
  }

  lemma {:induction false} IncOverflow(s: Octets)
    requires forall k :: 0 <= k < |s| ==> s[k] == 255
    ensures forall k :: 0 <= k < |s| ==> Inc(s)[k] == 0
    decreases |s|
  {
    if s != [] {
      IncOverflow(s[..|s| - 1]);
    }
  }

  /** The carry loop of `FirstUsableIP` for IPv6. */
  method IncrementBytes(ip: array<Octet>)
    modifies ip
    ensures ip[..] == Inc(old(ip[..]))
  {
    ghost var was := ip[..];
    var i := ip.Length;
    while i > 0
      invariant 0 <= i <= ip.Length && ip[..i] == was[..i]
      invariant forall k :: i <= k < ip.Length ==> was[k] == 255 && ip[k] == 0
    {
      i := i - 1;
      assert ip[i] == was[..i + 1][i];
      ip[i] := if ip[i] == 255 then 0 else ip[i] + 1;
      if ip[i] != 0 {
        IncCarry(was, i);
        assert forall k :: 0 <= k < i ==> ip[k] == was[..i][k];
        assert forall k :: 0 <= k < i ==> Inc(was)[k] == Inc(was)[..i][k];
        assert ip[..] == Inc(was);
        return;
      }
    }
    IncOverflow(was);
    assert ip[..] == Inc(was);
  }

  // ---------------------------------------------------------------- FirstUsableIP

  lemma Pow256Is(n: nat)
    ensures Pow256(n) == Pow2(8 * n)
    decreases n
  {
    if n > 0 {
      Pow256Is(n - 1);
      Pow2Byte();
      Pow2Add(8, 8 * (n - 1));
    }
  }

  /** The address after the one the subnet text names; the last address has no successor. */
  function After(n: Subnet6): nat {
    if n.ip + 1 == SPACE then 0 else n.ip + 1
  }

  /** `FirstUsableIP` for IPv6: the next address, if it is in the subnet. */
  method FirstUsable6(ip: Octets, n: Subnet6) returns (r: Result<Octets>)
    requires |ip| == 16 && n.ip == Number(ip)
    ensures r.Ok? <==> Contains(n, After(n))
    ensures r.Ok? ==> |r.value| == 16 && Number(r.value) == After(n)
  {
    var bytes := new Octet[16](i requires 0 <= i < 16 => ip[i]);
    assert bytes[..] == ip;
    IncrementBytes(bytes);
    IncIsPlusOne(ip);
    Pow256Is(16);
    Pow2Values();
    var next := bytes[..];
    if !Contains(n, Number(next)) {
      return Err;
    }
    return Ok(next);
  }

  /** The address with one added to its last byte only: after 255 comes 0, without carry. */
  function After4(n: Subnet4): nat {
    if n.ip % 256 == 255 then n.ip - 255 else n.ip + 1
  }

  /** `FirstUsableIP` for IPv4. */
  method FirstUsable4(ip: Octets, n: Subnet4) returns (r: Result<Octets>)
    requires |ip| == 4 && n.ip == Number(ip)
    ensures r.Ok? <==> Contains4(n, After4(n))
    ensures r.Ok? ==> |r.value| == 4 && Number(r.value) == After4(n)
  {
    var next := ip[..3] + [if ip[3] == 255 then 0 else ip[3] + 1];
    assert next[..3] == ip[..3];
    if !Contains4(n, Number(next)) {
      return Err;
    }
    return Ok(next);
  }

  /** The missing carry makes no difference for a canonical subnet with more than one address. */
  lemma CanonicalNoCarry(n: Subnet4)
    requires n.ones <= 31 && n.ip == Mask(n.ip, Size4(n))
    ensures After4(n) == n.ip + 1 && Contains4(n, After4(n))
  {
    CanonicalEven(n);
    assert Size4(n) == 2 * Pow2(31 - n.ones);
  }

  // ---------------------------------------------------------------- the DNS listener

  /** Some VM's pair can take the default DNS address. */
  ghost predicate Collides(n: Subnet6) {
    exists o: nat :: Guest(n, o) && (Pair6(n, o).host == After(n) || Pair6(n, o).guest == After(n))
  }

  lemma EvenSize(n: Subnet6)
    requires Size(n.bits) > 1
    ensures Size(n.bits) % 2 == 0
  {
    assert Size(128) == 1;
    assert Size(n.bits) == 2 * Pow2(127 - n.bits);
  }

  /** The odd end of the pair that an offset lies in. */
  function PairOf(x: nat, size: nat): (o: nat)
    requires 2 <= x < size && size % 2 == 0
    ensures 3 <= o < size && o % 2 == 1 && (x == o || x == o - 1)
  {
    if x % 2 == 1 then x else x + 1
  }

  /**
  The listener's address stays out of every pair exactly when the subnet text is canonical,
  or names the last address there is.
  */
  lemma DnsStaysFree(n: Subnet6)
    requires Contains(n, After(n))
    ensures Collides(n) <==> n.ip != Base(n) && n.ip + 1 != SPACE
  {
    if n.ip != Base(n) && n.ip + 1 != SPACE {
      EvenSize(n);
      var o := PairOf(After(n) - Base(n), Size(n.bits));
      assert Guest(n, o);
    }
  }
}
