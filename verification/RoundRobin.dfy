/** The round-robin picker with a wrapping 32-bit counter (infra/resolver/roundrobin.go). */
module RoundRobin {
  import opened Arithmetic
  import opened Model

  const U32: nat := 0x1_0000_0000

  // ---- counting residues

  /** turns * size */
  function Turns(turns: nat, size: nat): nat {
    if turns == 0 then 0 else Turns(turns - 1, size) + size
  }

  lemma {:induction false} TurnsProduct(turns: nat, size: nat)
    ensures Turns(turns, size) == turns * size
  {
    if turns > 0 {
      TurnsProduct(turns - 1, size);
      Products(turns - 1, 1, size);
    }
  }

  lemma TurnsRemainder(turns: nat, size: nat, r: nat)
    requires r < size
    ensures (Turns(turns, size) + r) / size == turns && (Turns(turns, size) + r) % size == r
  {
    TurnsProduct(turns, size);
    Division(Turns(turns, size) + r, size, turns, r);
  }

  lemma TurnsOf(x: nat, size: nat)
    requires size > 0
    ensures x == Turns(x / size, size) + x % size
  {
    TurnsProduct(x / size, size);
  }

  /** How many x < m have x % n == i. */
  function Residues(m: nat, n: nat, i: nat): nat
    requires n > 0
  {
    if m == 0 then 0 else Residues(m - 1, n, i) + One((m - 1) % n == i)
  }

  /** A lower residue is ahead of a higher one by one while the count stands between them, and else level with it. */
  lemma {:induction false} ResidueLead(m: nat, n: nat, i: nat, j: nat, q: nat, r: nat)
    requires i < j < n && r < n && m == Turns(q, n) + r
    ensures Residues(m, n, i) == Residues(m, n, j) + One(i < r <= j)
    decreases m
  {
    if r > 0 {
      TurnsRemainder(q, n, r - 1);
      ResidueLead(m - 1, n, i, j, q, r - 1);
    } else if q > 0 {
      TurnsRemainder(q - 1, n, n - 1);
      ResidueLead(m - 1, n, i, j, q - 1, n - 1);
    }
  }

  // ---- the picks of a run

  /** The counter after k additions of one, from `start`; it wraps at `modulus`. */
  function Counter(start: nat, k: nat, modulus: nat): nat {
    if k == 0 then start
    else
      var last := Counter(start, k - 1, modulus);
      if last + 1 == modulus then 0 else last + 1
  }

  /** How often it wrapped. */
  function Wraps(start: nat, k: nat, modulus: nat): nat {
    if k == 0 then 0
    else Wraps(start, k - 1, modulus) + One(Counter(start, k - 1, modulus) + 1 == modulus)
  }

  lemma {:induction false} CounterIsRemainder(start: nat, k: nat, modulus: nat)
    requires start < modulus
    ensures Counter(start, k, modulus) < modulus
    ensures start + k == Turns(Wraps(start, k, modulus), modulus) + Counter(start, k, modulus)
  {
    if k > 0 {
      CounterIsRemainder(start, k - 1, modulus);
    }
  }

  /** The indices picked by the first k calls. */
  function Picked(start: nat, k: nat, modulus: nat, n: nat): seq<nat>
    requires n > 0
  {
    if k == 0 then [] else Picked(start, k - 1, modulus, n) + [Counter(start, k, modulus) % n]
  }

  // ---- sums over counter values, for any weight of a value

  function SumBelow(m: nat, weight: nat -> nat): nat {
    if m == 0 then 0 else SumBelow(m - 1, weight) + weight(m - 1)
  }

  function SumPicked(start: nat, k: nat, modulus: nat, weight: nat -> nat): nat {
    if k == 0 then 0 else SumPicked(start, k - 1, modulus, weight) + weight(Counter(start, k, modulus))
  }

  /** Full turns of the counter, plus the part up to its value, minus the part before the start. */
  lemma {:induction false} PicksAsSums(start: nat, k: nat, modulus: nat, weight: nat -> nat)
    requires start < modulus
    ensures SumPicked(start, k, modulus, weight) + SumBelow(start + 1, weight)
            == Turns(Wraps(start, k, modulus), SumBelow(modulus, weight)) + SumBelow(Counter(start, k, modulus) + 1, weight)
  {
    if k > 0 {
      PicksAsSums(start, k - 1, modulus, weight);
      assert SumBelow(1, weight) == SumBelow(0, weight) + weight(0);
    }
  }

  function Hits(n: nat, i: nat): nat -> nat
    requires n > 0
  {
    x => One(x % n == i)
  }

  lemma {:induction false} ResiduesSum(m: nat, n: nat, i: nat)
    requires n > 0
    ensures Residues(m, n, i) == SumBelow(m, Hits(n, i))
  {
    if m > 0 {
      ResiduesSum(m - 1, n, i);
    }
  }

  lemma {:induction false} CountSums(start: nat, k: nat, modulus: nat, n: nat, i: nat)
    requires n > 0
    ensures Count(Picked(start, k, modulus, n), i) == SumPicked(start, k, modulus, Hits(n, i))
  {
    if k > 0 {
      CountSums(start, k - 1, modulus, n, i);
      CountMore(Picked(start, k - 1, modulus, n), Counter(start, k, modulus) % n, i);
    }
  }

  lemma PicksAsResidues(start: nat, k: nat, modulus: nat, n: nat, i: nat)
    requires start < modulus && n > 0
    ensures Count(Picked(start, k, modulus, n), i) + Residues(start + 1, n, i)
            == Turns(Wraps(start, k, modulus), Residues(modulus, n, i)) + Residues(Counter(start, k, modulus) + 1, n, i)
  {
    CountSums(start, k, modulus, n, i);
    ResiduesSum(start + 1, n, i);
    ResiduesSum(modulus, n, i);
    ResiduesSum(Counter(start, k, modulus) + 1, n, i);
    PicksAsSums(start, k, modulus, Hits(n, i));
  }

  /** Over any k picks from any start, two connections differ by at most one more than the counter's wraps,
      and by at most one if the number of connections divides the counter's range. */
  lemma Fairness(start: nat, k: nat, modulus: nat, n: nat, i: nat, j: nat)
    requires start < modulus && i < n && j < n
    ensures var a, b := Count(Picked(start, k, modulus, n), i), Count(Picked(start, k, modulus, n), j);
            && a <= b + 1 + Wraps(start, k, modulus)
            && (modulus % n == 0 ==> a <= b + 1)
  {
    PicksAsResidues(start, k, modulus, n, i);
    PicksAsResidues(start, k, modulus, n, j);
    FairnessByTurns(start, modulus, n, i, j, Wraps(start, k, modulus), Counter(start, k, modulus));
  }

  /** The difference that the picks of i and j can reach after some turns of the counter. */
  lemma FairnessByTurns(start: nat, modulus: nat, n: nat, i: nat, j: nat, turns: nat, value: nat)
    requires start < modulus && i < n && j < n
    ensures Turns(turns, Residues(modulus, n, i)) + Residues(value + 1, n, i) - Residues(start + 1, n, i)
            <= Turns(turns, Residues(modulus, n, j)) + Residues(value + 1, n, j) - Residues(start + 1, n, j)
               + 1 + (if modulus % n == 0 then 0 else turns)
  {
    Leads(start + 1, n, i, j);
    Leads(modulus, n, i, j);
    Leads(value + 1, n, i, j);
    TurnsApart(turns, Residues(modulus, n, i), Residues(modulus, n, j), modulus % n == 0);
  }

  lemma {:induction false} TurnsApart(turns: nat, low: nat, high: nat, level: bool)
    requires if level then low == high else low <= high + 1
    ensures Turns(turns, low) <= Turns(turns, high) + if level then 0 else turns
    ensures low <= high ==> Turns(turns, low) <= Turns(turns, high)
  {
    if turns > 0 {
      TurnsApart(turns - 1, low, high, level);
    }
  }

  lemma Leads(m: nat, n: nat, i: nat, j: nat)
    requires i < n && j < n
    ensures var a, b := Residues(m, n, i), Residues(m, n, j);
            if m % n == 0 then a == b else a <= b + 1 && b <= a + 1 && (i < j ==> a >= b) && (j < i ==> b >= a)
  {
    TurnsOf(m, n);
    if i < j {
      ResidueLead(m, n, i, j, m / n, m % n);
    } else if j < i {
      ResidueLead(m, n, j, i, m / n, m % n);
    }
  }

  /** From a multiple of n on, i is met once it has been passed. */
  lemma {:induction false} ResiduesOfPart(q: nat, r: nat, n: nat, i: nat)
    requires i < n && r <= n
    ensures Residues(Turns(q, n) + r, n, i) == Residues(Turns(q, n), n, i) + One(i < r)
  {
    if r > 0 {
      ResiduesOfPart(q, r - 1, n, i);
      TurnsRemainder(q, n, r - 1);
    }
  }

  /** Any n numbers in a row hold each residue once. */
  lemma ResiduesOfWindow(m: nat, n: nat, i: nat)
    requires i < n
    ensures Residues(m + n, n, i) == Residues(m, n, i) + 1
  {
    var q, r := m / n, m % n;
    TurnsOf(m, n);
    ResiduesOfPart(q, r, n, i);
    ResiduesOfPart(q, n, n, i);
    ResiduesOfPart(q + 1, r, n, i);
  }

  lemma {:induction false} ResiduesOfWindows(m: nat, rounds: nat, n: nat, i: nat, end: nat)
    requires i < n && end == m + Turns(rounds, n)
    ensures Residues(end, n, i) == Residues(m, n, i) + rounds
  {
    if rounds > 0 {
      ResiduesOfWindows(m, rounds - 1, n, i, end - n);
      ResiduesOfWindow(end - n, n, i);
    }
  }

  lemma {:induction false} NoWrap(start: nat, k: nat, modulus: nat)
    requires start + k < modulus
    ensures Wraps(start, k, modulus) == 0 && Counter(start, k, modulus) == start + k
  {
    if k > 0 {
      NoWrap(start, k - 1, modulus);
    }
  }

  /** While the counter does not wrap, whole rounds serve every connection equally often. */
  lemma WholeRounds(start: nat, rounds: nat, modulus: nat, n: nat, i: nat)
    requires i < n && start + Turns(rounds, n) < modulus
    ensures Count(Picked(start, Turns(rounds, n), modulus, n), i) == rounds
  {
    var k := Turns(rounds, n);
    NoWrap(start, k, modulus);
    PicksAsResidues(start, k, modulus, n, i);
    ResiduesOfWindows(start + 1, rounds, n, i, start + k + 1);
  }

  // ---- the picker

  /** One ready connection with the server name it was resolved under; "" for none. */
  datatype Ready<Conn> = Ready(conn: Conn, serverName: string)

  class RrPicker<Conn(==)> {
    const subConns: seq<Conn>
    const subIDIndex: map<string, Conn>
    var next: nat
    /** Where the counter started, and the indices of the picks without a static host. */
    ghost const start: nat
    ghost var history: seq<nat>

    ghost predicate Valid()
      reads this
    {
      && 0 < |subConns| < U32 && start < U32
      && next == Counter(start, |history|, U32)
      && history == Picked(start, |history|, U32, |subConns|)
    }

    /** Build: the connections come in some order, and `random` is the drawn first index. */
    constructor (ready: seq<Ready<Conn>>, random: nat)
      requires 0 < |ready| < U32 && random < |ready|
      ensures Valid() && history == [] && start == random
      ensures |subConns| == |ready| && forall i :: 0 <= i < |ready| ==> subConns[i] == ready[i].conn
      ensures forall name :: name in subIDIndex <==>
                name != "" && exists i :: 0 <= i < |ready| && ready[i].serverName == name
      ensures forall name :: name in subIDIndex ==>
                exists i :: 0 <= i < |ready| && ready[i] == Ready(subIDIndex[name], name)
    {
      var scs: seq<Conn> := [];
      var index: map<string, Conn> := map[];
      var k := 0;
      while k < |ready|
        invariant 0 <= k <= |ready| && |scs| == k
        invariant forall i :: 0 <= i < k ==> scs[i] == ready[i].conn
        invariant forall name :: name in index <==> name != "" && exists i :: 0 <= i < k && ready[i].serverName == name
        invariant forall name :: name in index ==> exists i :: 0 <= i < k && ready[i] == Ready(index[name], name)
      {
        scs := scs + [ready[k].conn];
        if ready[k].serverName != "" {
          index := index[ready[k].serverName := ready[k].conn];
        }
        assert ready[k] == Ready(ready[k].conn, ready[k].serverName);
        k := k + 1;
      }
      subConns, subIDIndex, next, start, history := scs, index, random, random, [];
    }

    /** A static host never moves the counter and is answered only by a connection registered under its name.
        Any other pick advances the counter by one, with wrap-around, and takes the connection it points at. */
    method Pick(host: Option<string>) returns (r: Option<Conn>)
      requires Valid()
      modifies this`next, this`history
      ensures Valid()
      ensures host.Some? ==> next == old(next) && history == old(history)
                             && (r.Some? <==> host.value in subIDIndex) && (r.Some? ==> r.value == subIDIndex[host.value])
      ensures host.None? ==> |history| == |old(history)| + 1 && history[..|old(history)|] == old(history)
                             && r == Some(subConns[history[|old(history)|]])
      ensures host.None? ==> next == (if old(next) == 4294967295 then 0 else old(next) + 1)
                             && r == Some(subConns[next % |subConns|])
    {
      match host {
        case Some(name) =>
          r := if name in subIDIndex then Some(subIDIndex[name]) else None;
        case None =>
          var subConnsLen := |subConns|;
          CounterIsRemainder(start, |history|, U32);
          next := if next + 1 == U32 then 0 else next + 1;
          history := history + [next % subConnsLen];
          r := Some(subConns[next % subConnsLen]);
      }
    }

    /** In every state the picker can reach, by any calls in any order. */
    lemma Fair(i: nat, j: nat)
      requires Valid() && i < |subConns| && j < |subConns|
      ensures Count(history, i) <= Count(history, j) + 1 + Wraps(start, |history|, U32)
      ensures U32 % |subConns| == 0 ==> Count(history, i) <= Count(history, j) + 1
    {
      Fairness(start, |history|, U32, |subConns|, i, j);
    }
  }

  /** Build answers with a picker iff some connection is ready; `random` is the index drawn below their number. */
  method Build<Conn(==)>(ready: seq<Ready<Conn>>, random: nat) returns (picker: Option<RrPicker<Conn>>)
    requires |ready| < U32 && (ready != [] ==> random < |ready|)
    ensures picker.None? <==> ready == []
    ensures picker.Some? ==>
              var p := picker.value;
              && fresh(p) && p.Valid() && p.history == [] && p.start == random
              && |p.subConns| == |ready| && (forall i :: 0 <= i < |ready| ==> p.subConns[i] == ready[i].conn)
              && (forall name :: name in p.subIDIndex <==>
                    name != "" && exists i :: 0 <= i < |ready| && ready[i].serverName == name)
              && (forall name :: name in p.subIDIndex ==>
                    exists i :: 0 <= i < |ready| && ready[i] == Ready(p.subIDIndex[name], name))
  {
    if |ready| == 0 {
      return None;
    }
    var p := new RrPicker(ready, random);
    picker := Some(p);
  }
}
