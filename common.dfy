/** Vocabulary shared by the agents: identities, positions, bid costs, and the
    few Python behaviours the agents lean on (string truthiness, `int()` on a
    float, `//` on ints, `split("@")[0]`, insertion-ordered dicts). */
module Common {

  /** An XMPP address such as "rover1@planet.local", compared as a plain string. */
  type Jid = string

  datatype Option<+T> = None | Some(value: T)

  datatype Result<+T, +E> = Ok(value: T) | Err(error: E)

  /** A continuous world coordinate (a Python pair of floats). */
  datatype Pos = Pos(x: real, y: real)

  /** A bid cost in seconds: a finite float, or `float('inf')`. */
  datatype Cost = Finite(seconds: real) | Infinite

  /** Python's `<` between two such floats. */
  predicate CostLess(a: Cost, b: Cost) {
    match a
    case Infinite => false
    case Finite(x) => b.Infinite? || x < b.seconds
  }

  /** Python's truthiness of a string: only the empty string is false. */
  predicate Truthy(s: string) {
    s != ""
  }

  /** Python's truthiness of a value that is either `None` or a string. */
  predicate TruthyOpt(o: Option<string>) {
    o.Some? && Truthy(o.value)
  }

  function Abs(r: real): real {
    if r < 0.0 then -r else r
  }

  /** Python's `int(r)` on a float: truncation toward zero. */
  function Trunc(r: real): (i: int)
    ensures 0.0 <= r ==> i as real <= r < i as real + 1.0
    ensures r < 0.0 ==> i as real - 1.0 < r <= i as real
  {
    if 0.0 <= r then r.Floor else -((-r).Floor)
  }

  /** Python's `a // b` on ints, which rounds toward minus infinity
      (Dafny's `/` is Euclidean and differs when `b` is negative). */
  function FloorDiv(a: int, b: int): (q: int)
    requires b != 0
    ensures 0 < b ==> q * b <= a < q * b + b
    ensures b < 0 ==> q * b + b < a <= q * b
  {
    if 0 < b then a / b else (-a) / (-b)
  }

  /** `str(jid).split("@")[0]`: the part of an address before its first '@'. */
  function ShortName(jid: Jid): (r: Jid)
    ensures r <= jid
    ensures '@' !in r
    ensures |r| < |jid| ==> jid[|r|] == '@'
  {
    if jid == [] || jid[0] == '@' then [] else [jid[0]] + ShortName(jid[1..])
  }

  /** An address without '@' is its own short name. */
  lemma {:induction false} ShortNameOfBareName(jid: Jid)
    requires '@' !in jid
    ensures ShortName(jid) == jid
  {
    if jid != [] {
      assert jid[0] in jid;
      assert forall c :: c in jid[1..] ==> c in jid;
      ShortNameOfBareName(jid[1..]);
    }
  }

  /** Taking the short name twice changes nothing more. */
  lemma ShortNameIdempotent(jid: Jid)
    ensures ShortName(ShortName(jid)) == ShortName(jid)
  {
    ShortNameOfBareName(ShortName(jid));
  }

  /** No element occurs twice. */
  predicate NoDuplicates<T(==)>(s: seq<T>) {
    forall i, j :: 0 <= i < j < |s| ==> s[i] != s[j]
  }

  /** `if x not in s: s.append(x)` — the guard both the base's queues and the
      satellite's scanned-area list use. */
  function AppendIfAbsent<T(==)>(s: seq<T>, x: T): (r: seq<T>)
  {
    if x in s then s else s + [x]
  }

  /** Afterwards `x` is present, nothing else was added, and the list is unchanged
      exactly when `x` was already there; a duplicate-free list stays so. */
  lemma AppendIfAbsentProperties<T>(s: seq<T>, x: T)
    ensures x in AppendIfAbsent(s, x)
    ensures multiset(AppendIfAbsent(s, x)) == multiset(s) + (if x in s then multiset{} else multiset{x})
    ensures (AppendIfAbsent(s, x) == s) <==> x in s
    ensures AppendIfAbsent(AppendIfAbsent(s, x), x) == AppendIfAbsent(s, x)
    ensures NoDuplicates(s) ==> NoDuplicates(AppendIfAbsent(s, x))
  {
    if x !in s {
      var r := s + [x];
      assert r[|s|] == x;
      assert r != s by { assert |r| != |s|; }
    }
  }

  // ---------------------------------------------------------------------------
  // Insertion-ordered dictionaries keyed by address (Python's dict)
  // ---------------------------------------------------------------------------

  datatype Entry<V> = Entry(key: Jid, val: V)

  predicate UniqueKeys<V>(d: seq<Entry<V>>) {
    forall i, j :: 0 <= i < j < |d| ==> d[i].key != d[j].key
  }

  predicate HasKey<V>(d: seq<Entry<V>>, k: Jid) {
    exists i :: 0 <= i < |d| && d[i].key == k
  }

  /** `d[k] = v`: an existing key keeps its place and takes the new value,
      a new key goes to the end. */
  function Put<V>(d: seq<Entry<V>>, k: Jid, v: V): (r: seq<Entry<V>>)
    ensures |r| == if HasKey(d, k) then |d| else |d| + 1
  {
    if d == [] then [Entry(k, v)]
    else if d[0].key == k then [Entry(k, v)] + d[1..]
    else
      assert HasKey(d, k) <==> HasKey(d[1..], k) by { HasKeyTail(d, k); }
      [d[0]] + Put(d[1..], k, v)
  }

  lemma HasKeyTail<V>(d: seq<Entry<V>>, k: Jid)
    requires d != []
    ensures HasKey(d, k) <==> d[0].key == k || HasKey(d[1..], k)
  {
    if HasKey(d, k) && d[0].key != k {
      var i :| 0 <= i < |d| && d[i].key == k;
      assert d[1..][i - 1].key == k;
    }
    if HasKey(d[1..], k) {
      var i :| 0 <= i < |d| - 1 && d[1..][i].key == k;
      assert d[i + 1].key == k;
    }
    if d[0].key == k {
      assert d[0].key == k;
    }
  }

  /** After `d[k] = v`: every old entry keeps its position and key, only the
      entry under `k` takes the new value, a new key lands at the end, and the
      keys are the old ones plus `k`. */
  lemma {:induction false} PutPlacesEntries<V>(d: seq<Entry<V>>, k: Jid, v: V)
    requires UniqueKeys(d)
    ensures var r := Put(d, k, v);
      && (forall i :: 0 <= i < |d| ==>
            r[i].key == d[i].key && r[i].val == (if d[i].key == k then v else d[i].val))
      && (!HasKey(d, k) ==> r[|d|] == Entry(k, v))
      && (forall j :: HasKey(r, j) <==> HasKey(d, j) || j == k)
  {
    var r := Put(d, k, v);
    if d == [] {
      assert r[0].key == k;
    } else if d[0].key == k {
      assert forall i :: 0 < i < |d| ==> d[i].key != d[0].key;
      forall j ensures HasKey(r, j) <==> HasKey(d, j) || j == k {
        HasKeyTail(d, j);
        HasKeyTail(r, j);
        assert r[1..] == d[1..];
      }
    } else {
      assert UniqueKeys(d[1..]);
      PutPlacesEntries(d[1..], k, v);
      HasKeyTail(d, k);
      assert r[1..] == Put(d[1..], k, v);
      forall j ensures HasKey(r, j) <==> HasKey(d, j) || j == k {
        HasKeyTail(d, j);
        HasKeyTail(r, j);
      }
    }
  }

  /** `d[k] = v` never creates a second entry under one key. */
  lemma {:induction false} PutKeepsUniqueKeys<V>(d: seq<Entry<V>>, k: Jid, v: V)
    requires UniqueKeys(d)
    ensures UniqueKeys(Put(d, k, v))
  {
    var r := Put(d, k, v);
    PutPlacesEntries(d, k, v);
    if !HasKey(d, k) {
      forall i, j | 0 <= i < j < |r| ensures r[i].key != r[j].key {
        if j == |d| {
          assert d[i].key == r[i].key;
        }
      }
    }
  }

  /** The entries whose key is not `winner`, in dictionary order: the
      proposals an initiator rejects once it has picked `winner`. */
  function Losers<V>(d: seq<Entry<V>>, winner: Jid): (r: seq<Entry<V>>)
    ensures forall e :: e in r ==> e in d && e.key != winner
  {
    if d == [] then []
    else Losers(d[..|d| - 1], winner) + (if d[|d| - 1].key != winner then [d[|d| - 1]] else [])
  }

  /** How many entries carry key `k`. */
  function CountKey<V>(d: seq<Entry<V>>, k: Jid): nat {
    if d == [] then 0 else CountKey(d[..|d| - 1], k) + (if d[|d| - 1].key == k then 1 else 0)
  }

  /** With distinct keys, each key occurs once in the dictionary. */
  lemma {:induction false} CountKeyUnique<V>(d: seq<Entry<V>>, k: Jid)
    requires UniqueKeys(d)
    ensures CountKey(d, k) == if HasKey(d, k) then 1 else 0
  {
    if d != [] {
      var p := d[..|d| - 1];
      assert UniqueKeys(p);
      CountKeyUnique(p, k);
      assert HasKey(d, k) <==> HasKey(p, k) || d[|d| - 1].key == k by {
        if HasKey(d, k) && d[|d| - 1].key != k {
          var i :| 0 <= i < |d| && d[i].key == k;
          assert p[i].key == k;
        }
        if HasKey(p, k) {
          var i :| 0 <= i < |p| && p[i].key == k;
          assert d[i].key == k;
        }
      }
    }
  }

  /** The loser list names every other key of the dictionary exactly once and
      never names the winner. */
  lemma {:induction false} LosersCount<V>(d: seq<Entry<V>>, winner: Jid, k: Jid)
    requires UniqueKeys(d)
    ensures CountKey(Losers(d, winner), k) == if k != winner && HasKey(d, k) then 1 else 0
  {
    if d != [] {
      var p := d[..|d| - 1];
      assert UniqueKeys(p);
      LosersCount(p, winner, k);
      var last := if d[|d| - 1].key != winner then [d[|d| - 1]] else [];
      CountKeyAppend(Losers(p, winner), last, k);
      CountKeyUnique(d, k);
      CountKeyUnique(p, k);
      assert CountKey(d, k) == CountKey(p, k) + (if d[|d| - 1].key == k then 1 else 0);
      if last != [] {
        assert CountKey(last, k) == (if d[|d| - 1].key == k then 1 else 0) by {
          assert last[..0] == [];
        }
      }
    }
  }

  lemma {:induction false} CountKeyAppend<V>(a: seq<Entry<V>>, b: seq<Entry<V>>, k: Jid)
    ensures CountKey(a + b, k) == CountKey(a, k) + CountKey(b, k)
  {
    if b != [] {
      assert (a + b)[..|a + b| - 1] == a + b[..|b| - 1];
      CountKeyAppend(a, b[..|b| - 1], k);
    } else {
      assert a + b == a;
    }
  }

  // ---------------------------------------------------------------------------
  // Bids and the scan window, both written twice in the source
  // ---------------------------------------------------------------------------

  /** A stored bid: its cost and the rover the bidding base offers. */
  datatype Bid = Bid(cost: Cost, rover: Jid)

  /** The "cost" field of a proposal body after `eval`: missing, a value
      `float()` accepts, or one it rejects with TypeError/ValueError. */
  datatype CostField = CostAbsent | CostGiven(c: Cost) | CostInvalid

  /** A proposal body: its cost field and its optional "base" and "rover" fields. */
  datatype Proposal = Proposal(cost: CostField, base: Option<Jid>, rover: Option<Jid>)

  /** `float(bid_data.get("cost", float('inf')))`: a missing cost is infinite;
      `None` stands for the exception that makes the handler ignore the bid. */
  function BidCost(f: CostField): (r: Option<Cost>)
    ensures f.CostAbsent? ==> r == Some(Infinite)
    ensures r.None? <==> f.CostInvalid?
  {
    match f
    case CostAbsent => Some(Infinite)
    case CostGiven(c) => Some(c)
    case CostInvalid => None
  }

  /** One step of a scan window: x advances by `step`; past `length` it wraps
      to 0 and y advances by `step`; y past `height` wraps to 0. */
  function NextScan(p: Pos, step: int, length: int, height: int): Pos {
    var x := p.x + step as real;
    var q := if x > length as real then Pos(0.0, p.y + step as real) else Pos(x, p.y);
    if q.y > height as real then Pos(q.x, 0.0) else q
  }

  predicate InWindow(p: Pos, length: int, height: int) {
    0.0 <= p.x <= length as real && 0.0 <= p.y <= height as real
  }

  /** A non-negative step keeps the window inside the map. */
  lemma NextScanStaysInWindow(p: Pos, step: int, length: int, height: int)
    requires 0 <= step
    requires InWindow(p, length, height)
    ensures InWindow(NextScan(p, step, length, height), length, height)
  {
  }

  /** x wraps to 0, and y moves on by `step` (or wraps in turn), exactly when
      x + step passes the length; otherwise x moves on by `step` and y stays. */
  lemma NextScanWrapsExactlyPastLength(p: Pos, step: int, length: int, height: int)
    requires 0 < step
    requires InWindow(p, length, height)
    ensures var q := NextScan(p, step, length, height);
      (p.x + step as real > length as real <==> q.x == 0.0) &&
      (p.x + step as real > length as real ==>
         q.y == (if p.y + step as real > height as real then 0.0 else p.y + step as real)) &&
      (p.x + step as real <= length as real ==> q == Pos(p.x + step as real, p.y))
  {
  }

  /** The window sweeps rows in order: each step moves strictly forward in
      (row, column) order, or restarts at the first row. */
  lemma NextScanSweepsRowMajor(p: Pos, step: int, length: int, height: int)
    requires 0 < step
    requires InWindow(p, length, height)
    ensures var q := NextScan(p, step, length, height);
      q.y > p.y || (q.y == p.y && q.x > p.x) || q.y == 0.0
  {
  }
}
