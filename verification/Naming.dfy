/** Connection names (muduo/TcpServer.cpp) and the round robin over loops (muduo/EventLoopThreadPool.cpp). */
module Naming {
  function Digit(d: nat): char
    requires d < 10
  {
    "0123456789"[d]
  }

  /** printf's %d and %u for a number that is not negative. */
  function Decimal(n: nat): (s: string)
    ensures s != []
  {
    if n < 10 then [Digit(n)] else Decimal(n / 10) + [Digit(n % 10)]
  }

  function Value(s: string): int {
    if s == [] then 0 else 10 * Value(s[..|s| - 1]) + (s[|s| - 1] as int - '0' as int)
  }

  lemma DigitValue(d: nat)
    requires d < 10
    ensures Digit(d) as int - '0' as int == d
  {
  }

  /** Reading a printed number back gives the number. */
  lemma {:induction false} DecimalRoundTrip(n: nat)
    ensures Value(Decimal(n)) == n
  {
    DigitValue(n % 10);
    if n >= 10 {
      DecimalRoundTrip(n / 10);
      assert Decimal(n)[..|Decimal(n)| - 1] == Decimal(n / 10);
    } else {
      assert Decimal(n)[..0] == [];
    }
  }

  /** A printed number is its decimal digits and nothing else, without a zero in front. */
  lemma {:induction false} DecimalIsDigits(n: nat)
    ensures forall i :: 0 <= i < |Decimal(n)| ==> '0' <= Decimal(n)[i] <= '9'
    ensures Decimal(n)[0] == '0' ==> n == 0
  {
    if n >= 10 {
      DecimalIsDigits(n / 10);
    }
  }

  function Power10(k: nat): nat {
    if k == 0 then 1 else 10 * Power10(k - 1)
  }

  lemma {:induction false} DecimalLength(n: nat, k: nat)
    requires 1 <= k && n < Power10(k)
    ensures |Decimal(n)| <= k
  {
    if n >= 10 {
      assert Power10(1) == 10 * Power10(0);
      DecimalLength(n / 10, k - 1);
    }
  }

  /** A number, a separator and what follows. */
  function Field(n: nat, sep: char, rest: string): string {
    Decimal(n) + [sep] + rest
  }

  function ToIpPort(a: nat, b: nat, c: nat, d: nat, port: nat): string {
    Field(a, '.', Field(b, '.', Field(c, '.', Field(d, ':', Decimal(port)))))
  }

  const MAX_IP_PORT: nat := 21

  lemma IpPortFits(a: nat, b: nat, c: nat, d: nat, port: nat)
    requires a < 256 && b < 256 && c < 256 && d < 256 && port < 65536
    ensures |ToIpPort(a, b, c, d, port)| <= MAX_IP_PORT
  {
    assert Power10(3) == 1000 && Power10(5) == 100000;
    DecimalLength(a, 3);
    DecimalLength(b, 3);
    DecimalLength(c, 3);
    DecimalLength(d, 3);
    DecimalLength(port, 5);
  }

  /** Digits up to a separator can be read off in one way only. */
  lemma FieldSplits(m: nat, n: nat, sep: char, rest: string, more: string)
    requires !('0' <= sep <= '9')
    ensures Field(m, sep, rest) == Field(n, sep, more) <==> m == n && rest == more
  {
    var a, b, s := Decimal(m), Decimal(n), Field(m, sep, rest);
    DecimalIsDigits(m);
    DecimalIsDigits(n);
    hide Decimal;
    if s == Field(n, sep, more) {
      assert s[|a|] == sep && s[|b|] == sep;
      assert forall i :: 0 <= i < |a| ==> s[i] == a[i];
      assert forall i :: 0 <= i < |b| ==> s[i] == b[i];
      assert |a| == |b| && a == s[..|a|] && b == s[..|b|];
      assert rest == s[|a| + 1..] && more == s[|b| + 1..];
      DecimalRoundTrip(m);
      DecimalRoundTrip(n);
    }
  }

  /** Different addresses and ports print differently. */
  lemma IpPortsDiffer(a: nat, b: nat, c: nat, d: nat, port: nat, e: nat, f: nat, g: nat, h: nat, other: nat)
    ensures ToIpPort(a, b, c, d, port) == ToIpPort(e, f, g, h, other) <==>
            a == e && b == f && c == g && d == h && port == other
  {
    var p, q := Decimal(port), Decimal(other);
    DecimalRoundTrip(port);
    DecimalRoundTrip(other);
    hide Field, Decimal;
    var k, l := Field(d, ':', p), Field(h, ':', q);
    var m, n := Field(c, '.', k), Field(g, '.', l);
    FieldSplits(d, h, ':', p, q);
    FieldSplits(c, g, '.', k, l);
    FieldSplits(b, f, '.', m, n);
    FieldSplits(a, e, '.', Field(b, '.', m), Field(f, '.', n));
  }

  /** snprintf into a buffer of `size` characters, the last of which is the terminator. */
  function Snprintf(size: nat, text: string): string
    requires size > 0
  {
    if |text| < size then text else text[..size - 1]
  }

  const NAME_BUFFER: nat := 64
  const INT_MAX: nat := 0x7fff_ffff

  function ConnName(server: string, ipPort: string, id: nat): string {
    server + Snprintf(NAME_BUFFER, "-" + ipPort + "#" + Decimal(id))
  }

  /** No name is truncated. */
  lemma NameFits(server: string, ipPort: string, id: nat)
    requires |ipPort| <= MAX_IP_PORT && id <= INT_MAX
    ensures ConnName(server, ipPort, id) == server + ("-" + ipPort + "#") + Decimal(id)
  {
    assert Power10(10) == 10000000000;
    DecimalLength(id, 10);
    assert "-" + ipPort + "#" + Decimal(id) == ("-" + ipPort + "#") + Decimal(id);
  }

  /** Different connections have different names, so none overwrites another in the server's map. */
  lemma NamesDistinct(server: string, ipPort: string, i: nat, j: nat)
    requires |ipPort| <= MAX_IP_PORT && i <= INT_MAX && j <= INT_MAX
    ensures ConnName(server, ipPort, i) == ConnName(server, ipPort, j) <==> i == j
  {
    var prefix := server + ("-" + ipPort + "#");
    NameFits(server, ipPort, i);
    NameFits(server, ipPort, j);
    if ConnName(server, ipPort, i) == ConnName(server, ipPort, j) {
      assert Decimal(i) == (prefix + Decimal(i))[|prefix|..];
      assert Decimal(j) == (prefix + Decimal(j))[|prefix|..];
      DecimalRoundTrip(i);
      DecimalRoundTrip(j);
    }
  }
}

module RoundRobin {
  type LoopId = nat

  /** How many of the first `k` turns over `n` loops fall on loop `j`. */
  function Turns(n: nat, j: nat, k: nat): nat
    requires j < n
  {
    if k == 0 then 0 else Turns(n, j, k - 1) + if (k - 1) % n == j then 1 else 0
  }

  /** Each loop gets the floor of k/n turns or its ceiling, and the first k mod n loops the ceiling. */
  lemma {:induction false} FairShare(n: nat, j: nat, k: nat)
    requires j < n
    ensures Turns(n, j, k) == k / n + if j < k % n then 1 else 0
  {
    if k > 0 {
      FairShare(n, j, k - 1);
      NextTurn(n, k - 1);
    }
  }

  lemma NextTurn(n: nat, k: nat)
    requires n > 0
    ensures if k % n + 1 < n then (k + 1) % n == k % n + 1 && (k + 1) / n == k / n
            else (k + 1) % n == 0 && (k + 1) / n == k / n + 1
  {
    var q, m := k / n, k % n;
    assert k == q * n + m;
    if m + 1 < n {
      QuotientUnique(k + 1, n, q, m + 1);
    } else {
      assert k + 1 == (q + 1) * n + 0;
      QuotientUnique(k + 1, n, q + 1, 0);
    }
  }

  lemma QuotientUnique(k: nat, n: nat, q: nat, m: nat)
    requires n > 0 && k == q * n + m && m < n
    ensures k / n == q && k % n == m
  {
    var a, b := k / n, k % n;
    assert a * n + b == q * n + m && b < n;
    if a < q {
      MultipleApart(a, q, n);
    } else if q < a {
      MultipleApart(q, a, n);
    }
  }

  lemma {:induction false} MultipleApart(a: nat, b: nat, n: nat)
    requires a < b
    ensures a * n + n <= b * n
    decreases b
  {
    assert b * n == (b - 1) * n + n;
    if a < b - 1 {
      MultipleApart(a, b - 1, n);
    }
  }

  lemma TurnMoves(n: nat, k: nat)
    requires n > 0 && k > 0
    ensures (k - 1) % n < n && ((k - 1) % n + 1) % n == k % n
  {
    NextTurn(n, k - 1);
  }

  /** muduo/EventLoopThreadPool.cpp over loops of any kind; `handed` is what getNextLoop has given out. */
  class EventLoopThreadPool<L> {
    const baseLoop: L
    var loops: seq<L>
    var started: bool
    var next: nat
    ghost var handed: seq<L>

    ghost predicate Valid()
      reads this
    {
      && (loops == [] ==> next == 0 && forall i :: 0 <= i < |handed| ==> handed[i] == baseLoop)
      && (loops != [] ==>
            next == |handed| % |loops| && forall i :: 0 <= i < |handed| ==> handed[i] == loops[i % |loops|])
    }

    constructor (baseLoop: L)
      ensures Valid() && this.baseLoop == baseLoop && loops == [] && handed == [] && !started
    {
      this.baseLoop, loops, started, next, handed := baseLoop, [], false, 0, [];
    }

    /** Starts one thread per loop of `spawned`, the loops that the threads report back.  The init callback,
        when there is one, runs on each of them, or on the base loop when there are none. */
    method Start(spawned: seq<L>, callback: bool) returns (initialised: seq<L>)
      requires Valid() && loops == [] && handed == []
      modifies this
      ensures Valid() && started && loops == spawned && handed == []
      ensures initialised == if !callback then [] else if spawned == [] then [baseLoop] else spawned
    {
      started, initialised := true, [];
      for i := 0 to |spawned|
        invariant started && loops == spawned[..i] && next == 0 && handed == []
        invariant initialised == if callback then spawned[..i] else []
      {
        if callback {
          initialised := initialised + [spawned[i]];
        }
        loops := loops + [spawned[i]];
      }
      assert spawned[..|spawned|] == spawned;
      if |spawned| == 0 && callback {
        initialised := initialised + [baseLoop];
      }
    }

    method GetNextLoop() returns (loop: L)
      requires Valid()
      modifies this`next, this`handed
      ensures Valid() && handed == old(handed) + [loop]
      ensures loop == if loops == [] then baseLoop else loops[|old(handed)| % |loops|]
      ensures loops == [] ==> loop == baseLoop && next == old(next)
      ensures loops != [] ==> loop == loops[old(next)] && next == (old(next) + 1) % |loops|
    {
      loop := baseLoop;
      if |loops| != 0 {
        TurnMoves(|loops|, |handed| + 1);
        loop := loops[next];
        next := (next + 1) % |loops|;
      }
      handed := handed + [loop];
    }

    method GetAllLoops() returns (all: seq<L>)
      ensures all == if loops == [] then [baseLoop] else loops
    {
      if |loops| == 0 {
        all := [baseLoop];
      } else {
        all := loops;
      }
    }
  }
}
