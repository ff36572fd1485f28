// contracts/starflet/src/state.rs: the planet map, kept in byte order of its keys, and its listing
// in pages. A character of this model is one byte.

module Paging {
  import opened Wrappers
  import opened FixedPoint

  datatype PlanetInfo = PlanetInfo(contractAddr: Addr, title: string, description: string)
  type Planets = map<Addr, PlanetInfo>

  const MAX_LIMIT: nat := 30
  const DEFAULT_LIMIT: nat := 10

  // ---- byte order

  predicate Before(a: Addr, b: Addr) {
    b != "" && (a == "" || a[0] < b[0] || (a[0] == b[0] && Before(a[1..], b[1..])))
  }

  lemma {:induction false} BeforeIsTotal(a: Addr, b: Addr)
    ensures a == b || Before(a, b) || Before(b, a)
    ensures !(Before(a, b) && Before(b, a)) && !Before(a, a)
    decreases |a|
  {
    if a != "" {
      BeforeIsTotal(a[1..], a[1..]);
      if b != "" && a[0] == b[0] {
        BeforeIsTotal(a[1..], b[1..]);
        assert a == [a[0]] + a[1..] && b == [b[0]] + b[1..];
      }
    }
  }

  lemma {:induction false} BeforeIsTransitive(a: Addr, b: Addr, c: Addr)
    requires Before(a, b) && Before(b, c)
    ensures Before(a, c)
    decreases |a|
  {
    if a != "" && a[0] == b[0] == c[0] {
      BeforeIsTransitive(a[1..], b[1..], c[1..]);
    }
  }

  // It is the order of the first byte in which the two differ; a prefix comes first.
  lemma {:induction false} BeforeIsByteOrder(a: Addr, b: Addr)
    ensures Before(a, b) <==>
            exists n :: 0 <= n <= |a| && n < |b| && a[..n] == b[..n] && (n == |a| || a[n] < b[n])
    decreases |a|
  {
    if a == "" || b == "" || a[0] != b[0] {
      if Before(a, b) {
        assert a[..0] == b[..0];
      }
    } else {
      BeforeIsByteOrder(a[1..], b[1..]);
      FirstDifferenceShifts(a, b);
    }
  }

  lemma FirstDifferenceShifts(a: Addr, b: Addr)
    requires a != "" && b != "" && a[0] == b[0]
    ensures (exists n :: 0 <= n <= |a| && n < |b| && a[..n] == b[..n] && (n == |a| || a[n] < b[n])) <==>
            var c, d := a[1..], b[1..];
            exists n :: 0 <= n <= |c| && n < |d| && c[..n] == d[..n] && (n == |c| || c[n] < d[n])
  {
    var c, d := a[1..], b[1..];
    forall n | 0 <= n <= |a| && n < |b| && a[..n] == b[..n] && (n == |a| || a[n] < b[n])
      ensures exists m :: 0 <= m <= |c| && m < |d| && c[..m] == d[..m] && (m == |c| || c[m] < d[m])
    {
      var m := n - 1;
      assert c[..m] == a[..n][1..] && d[..m] == b[..n][1..];
    }
    forall n | 0 <= n <= |c| && n < |d| && c[..n] == d[..n] && (n == |c| || c[n] < d[n])
      ensures exists m :: 0 <= m <= |a| && m < |b| && a[..m] == b[..m] && (m == |a| || a[m] < b[m])
    {
      var m := n + 1;
      assert a[..m] == [a[0]] + c[..n] && b[..m] == [b[0]] + d[..n];
    }
  }

  // ---- the stored keys in ascending order

  predicate IsLeast(least: Addr, keys: set<Addr>) {
    least in keys && forall key :: key in keys && key != least ==> Before(least, key)
  }

  lemma {:induction false} LeastExists(keys: set<Addr>)
    requires keys != {}
    ensures exists least :: IsLeast(least, keys)
    decreases |keys|
  {
    var some :| some in keys;
    var rest := keys - {some};
    if rest == {} {
      assert keys == {some};
      assert IsLeast(some, keys);
    } else {
      LeastExists(rest);
      var least :| IsLeast(least, rest);
      BeforeIsTotal(some, least);
      if Before(some, least) {
        forall key | key in keys && key != some
          ensures Before(some, key)
        {
          if key != least { BeforeIsTransitive(some, least, key); }
        }
        assert IsLeast(some, keys);
      } else {
        assert IsLeast(least, keys);
      }
    }
  }

  lemma LeastIsUnique(keys: set<Addr>)
    ensures forall x, y :: IsLeast(x, keys) && IsLeast(y, keys) ==> x == y
  {
    forall x, y | IsLeast(x, keys) && IsLeast(y, keys)
      ensures x == y
    {
      BeforeIsTotal(x, y);
    }
  }

  // The keys as a range over the store yields them.
  function Ascending(keys: set<Addr>): (all: seq<Addr>)
    ensures |all| == |keys| && forall key :: key in all <==> key in keys
    decreases |keys|
  {
    if keys == {} then []
    else
      LeastExists(keys);
      LeastIsUnique(keys);
      var least :| IsLeast(least, keys);
      [least] + Ascending(keys - {least})
  }

  ghost predicate Sorted(keys: seq<Addr>) {
    forall i, j :: 0 <= i < j < |keys| ==> Before(keys[i], keys[j])
  }

  // A range over the store visits every key once, in ascending order.
  lemma {:induction false} AscendingIsSorted(keys: set<Addr>)
    ensures Sorted(Ascending(keys))
    decreases |keys|
  {
    if keys != {} {
      var all := Ascending(keys);
      var least := all[0];
      LeastExists(keys);
      assert IsLeast(least, keys);
      AscendingIsSorted(keys - {least});
      assert all[1..] == Ascending(keys - {least});
      forall i, j | 0 <= i < j < |all|
        ensures Before(all[i], all[j])
      {
        assert all[j] == all[1..][j - 1] && all[j] in all[1..];
        if i > 0 { assert all[i] == all[1..][i - 1]; }
      }
    }
  }

  // ---- load_planets

  // The keys from an exclusive lower bound on.
  function After(keys: seq<Addr>, start: Option<Addr>): seq<Addr> {
    if keys == [] then []
    else (if start.None? || Before(start.value, keys[0]) then [keys[0]] else []) + After(keys[1..], start)
  }

  function PageLimit(limit: Option<nat>): nat {
    Min(if limit.Some? then limit.value else DEFAULT_LIMIT, MAX_LIMIT)
  }

  function Values(planets: Planets, keys: seq<Addr>): seq<PlanetInfo>
    requires forall key :: key in keys ==> key in planets
  {
    seq(|keys|, i requires 0 <= i < |keys| => planets[keys[i]])
  }

  lemma {:induction false} AfterSelects(keys: seq<Addr>, start: Option<Addr>)
    ensures forall key :: key in After(keys, start) ==> key in keys
    ensures |After(keys, start)| <= |keys|
  {
    if keys != [] {
      AfterSelects(keys[1..], start);
    }
  }

  function LoadPlanets(planets: Planets, start: Option<Addr>, limit: Option<nat>): seq<PlanetInfo> {
    var keys := After(Ascending(planets.Keys), start);
    AfterSelects(Ascending(planets.Keys), start);
    Values(planets, keys[..Min(PageLimit(limit), |keys|)])
  }

  // The whole registry as one listing.
  function Listing(planets: Planets): seq<PlanetInfo> {
    Values(planets, Ascending(planets.Keys))
  }

  // ---- following the pages

  // Every planet is stored under its own address; add, edit and remove keep this.
  predicate KeysMatch(planets: Planets) {
    forall key :: key in planets ==> planets[key].contractAddr == key
  }

  // From the end of one page to the next: after the key at i come the keys from i + 1 on.
  lemma {:induction false} AfterKey(keys: seq<Addr>, i: nat)
    requires Sorted(keys) && i < |keys|
    ensures After(keys, Some(keys[i])) == keys[i + 1..]
  {
    var start := Some(keys[i]);
    BeforeIsTotal(keys[i], keys[0]);
    if i == 0 {
      AfterAll(keys[1..], start);
      assert keys[0] == keys[i];
    } else {
      assert Before(keys[0], keys[i]);
      AfterKey(keys[1..], i - 1);
    }
  }

  lemma {:induction false} AfterAll(keys: seq<Addr>, start: Option<Addr>)
    requires start.Some? ==> forall key :: key in keys ==> Before(start.value, key)
    ensures After(keys, start) == keys
  {
    if keys != [] {
      AfterAll(keys[1..], start);
    }
  }

  function LastSeen(keys: seq<Addr>, i: nat): Option<Addr>
    requires i <= |keys|
  {
    if i == 0 then None else Some(keys[i - 1])
  }

  lemma AfterLastSeen(keys: seq<Addr>, i: nat)
    requires Sorted(keys) && i <= |keys|
    ensures After(keys, LastSeen(keys, i)) == keys[i..]
  {
    if i == 0 {
      AfterAll(keys, None);
    } else {
      AfterKey(keys, i - 1);
    }
  }

  // The start_after of a client that has seen the first i planets.
  function Bound(planets: Planets, i: nat): Option<Addr>
    requires i <= |planets.Keys|
  {
    LastSeen(Ascending(planets.Keys), i)
  }

  lemma KeysFrom(planets: Planets, i: nat)
    requires i <= |planets.Keys|
    ensures After(Ascending(planets.Keys), Bound(planets, i)) == Ascending(planets.Keys)[i..]
  {
    AscendingIsSorted(planets.Keys);
    AfterLastSeen(Ascending(planets.Keys), i);
  }

  lemma ValuesSlice(planets: Planets, keys: seq<Addr>, i: nat, n: nat)
    requires forall key :: key in keys ==> key in planets
    requires i + n <= |keys|
    ensures forall key :: key in keys[i..][..n] ==> key in planets
    ensures Values(planets, keys[i..][..n]) == Values(planets, keys)[i..i + n]
    ensures n > 0 ==> Values(planets, keys)[i..i + n][n - 1] == planets[keys[i + n - 1]]
  {
    forall key | key in keys[i..][..n]
      ensures key in planets
    {
      assert key in keys;
    }
  }

  lemma PageKeys(planets: Planets, i: nat, n: nat, limit: Option<nat>)
    requires i <= |planets.Keys| && n == Min(PageLimit(limit), |planets.Keys| - i)
    ensures forall key :: key in Ascending(planets.Keys)[i..][..n] ==> key in planets
    ensures LoadPlanets(planets, Bound(planets, i), limit) == Values(planets, Ascending(planets.Keys)[i..][..n])
  {
    KeysFrom(planets, i);
  }

  lemma PageIsSlice(planets: Planets, i: nat, n: nat, limit: Option<nat>)
    requires i <= |planets.Keys| && n == Min(PageLimit(limit), |planets.Keys| - i)
    ensures LoadPlanets(planets, Bound(planets, i), limit) == Listing(planets)[i..i + n]
  {
    PageKeys(planets, i, n, limit);
    ValuesSlice(planets, Ascending(planets.Keys), i, n);
  }

  lemma ListedUnderKey(planets: Planets, i: nat)
    requires KeysMatch(planets) && i < |planets.Keys|
    ensures Some(Listing(planets)[i].contractAddr) == Bound(planets, i + 1)
  {
    assert Ascending(planets.Keys)[i] in planets;
  }

  lemma LimitIsAsked(limit: Option<nat>, left: nat)
    ensures var asked := if limit.None? then 10 else if limit.value > 30 then 30 else limit.value;
            PageLimit(limit) == asked && Min(PageLimit(limit), left) == if left < asked then left else asked
  {}

  // What a page is, when it starts at position i of the listing, and where the next one starts. It is
  // as long as asked for, ten when nothing is asked for and thirty at most, if so much is left.
  lemma PageAt(planets: Planets, i: nat, limit: Option<nat>)
    requires KeysMatch(planets) && i <= |planets.Keys|
    ensures var page, left := LoadPlanets(planets, Bound(planets, i), limit), |planets.Keys| - i;
            var asked := if limit.None? then 10 else if limit.value > 30 then 30 else limit.value;
            && |page| == (if left < asked then left else asked)
            && page == Listing(planets)[i..i + |page|]
            && (page != [] ==> Some(page[|page| - 1].contractAddr) == Bound(planets, i + |page|))
  {
    var n := Min(PageLimit(limit), |planets.Keys| - i);
    LimitIsAsked(limit, |planets.Keys| - i);
    PageIsSlice(planets, i, n, limit);
    if n > 0 {
      ListedUnderKey(planets, i + n - 1);
    }
  }

  // A start that need not be stored, because that planet has been removed since, say.
  lemma {:induction false} AfterIsSuffix(keys: seq<Addr>, start: Option<Addr>) returns (i: nat)
    requires Sorted(keys)
    ensures i <= |keys| && After(keys, start) == keys[i..]
    ensures forall j :: 0 <= j < |keys| ==> (i <= j <==> start.None? || Before(start.value, keys[j]))
  {
    if keys == [] {
      i := 0;
    } else if start.None? || Before(start.value, keys[0]) {
      forall key | start.Some? && key in keys
        ensures Before(start.value, key)
      {
        if key != keys[0] { BeforeIsTransitive(start.value, keys[0], key); }
      }
      AfterAll(keys, start);
      i := 0;
    } else {
      i := AfterIsSuffix(keys[1..], start);
      i := i + 1;
    }
  }

  // The planets that come after `start` are those from position i of the listing on.
  ghost predicate ComesAfter(planets: Planets, start: Option<Addr>, i: nat) {
    && i <= |planets.Keys|
    && forall j :: 0 <= j < |planets.Keys| ==>
         (i <= j <==> start.None? || Before(start.value, Listing(planets)[j].contractAddr))
  }

  lemma StartIsBound(planets: Planets, start: Option<Addr>) returns (i: nat)
    requires KeysMatch(planets)
    ensures ComesAfter(planets, start, i)
    ensures After(Ascending(planets.Keys), start) == After(Ascending(planets.Keys), Bound(planets, i))
  {
    var keys := Ascending(planets.Keys);
    AscendingIsSorted(planets.Keys);
    i := AfterIsSuffix(keys, start);
    KeysFrom(planets, i);
    forall j | 0 <= j < |keys|
      ensures Listing(planets)[j].contractAddr == keys[j]
    {
      assert keys[j] in keys;
    }
  }

  // The page for any start: the first planets of the listing whose address comes after it, as many as
  // are asked for.
  lemma PageFrom(planets: Planets, start: Option<Addr>, limit: Option<nat>) returns (i: nat)
    requires KeysMatch(planets)
    ensures ComesAfter(planets, start, i)
    ensures var page, left := LoadPlanets(planets, start, limit), |planets.Keys| - i;
            var asked := if limit.None? then 10 else if limit.value > 30 then 30 else limit.value;
            |page| == (if left < asked then left else asked) && page == Listing(planets)[i..i + |page|]
  {
    i := StartIsBound(planets, start);
    SamePage(planets, start, Bound(planets, i), limit);
    PageAt(planets, i, limit);
  }

  lemma SamePage(planets: Planets, start: Option<Addr>, other: Option<Addr>, limit: Option<nat>)
    requires After(Ascending(planets.Keys), start) == After(Ascending(planets.Keys), other)
    ensures LoadPlanets(planets, start, limit) == LoadPlanets(planets, other, limit)
  {}

  // A client feeds the address of the last planet of a page back as start_after, until a page is
  // empty. `i` counts the planets seen so far.
  function Follow(planets: Planets, start: Option<Addr>, limit: Option<nat>, ghost i: nat): seq<seq<PlanetInfo>>
    requires KeysMatch(planets) && i <= |planets.Keys| && start == Bound(planets, i)
    decreases |planets.Keys| - i
  {
    var page := LoadPlanets(planets, start, limit);
    PageAt(planets, i, limit);
    if page == [] then []
    else [page] + Follow(planets, Some(page[|page| - 1].contractAddr), limit, i + |page|)
  }

  function Concat<T>(pages: seq<seq<T>>): seq<T> {
    if pages == [] then [] else pages[0] + Concat(pages[1..])
  }

  // A listing cut into slices of n, from position i on.
  function Slices<T>(all: seq<T>, n: nat, i: nat): seq<seq<T>>
    requires n != 0 && i <= |all|
    decreases |all| - i
  {
    if i == |all| then []
    else
      var next := i + Min(n, |all| - i);
      [all[i..next]] + Slices(all, n, next)
  }

  lemma {:induction false} SlicesCover<T>(all: seq<T>, n: nat, i: nat)
    requires n != 0 && i <= |all|
    ensures Concat(Slices(all, n, i)) == all[i..]
    ensures forall slice :: slice in Slices(all, n, i) ==> 0 < |slice| <= n
    decreases |all| - i
  {
    if i < |all| {
      var next := i + Min(n, |all| - i);
      SlicesCover(all, n, next);
      assert Slices(all, n, i)[1..] == Slices(all, n, next);
      assert all[i..] == all[i..next] + all[next..];
    }
  }

  lemma {:induction false} SlicesCount<T>(all: seq<T>, n: nat, i: nat)
    requires n != 0 && i <= |all|
    ensures |Slices(all, n, i)| == CeilDiv(|all| - i, n)
    decreases |all| - i
  {
    PageCount(|all| - i, n);
    if i < |all| {
      SlicesCount(all, n, i + Min(n, |all| - i));
    }
  }

  lemma FollowOne(planets: Planets, limit: Option<nat>, i: nat)
    requires KeysMatch(planets) && i < |planets.Keys| && PageLimit(limit) != 0
    ensures var next := i + Min(PageLimit(limit), |planets.Keys| - i);
            Follow(planets, Bound(planets, i), limit, i) ==
            [Listing(planets)[i..next]] + Follow(planets, Bound(planets, next), limit, next)
  {
    PageAt(planets, i, limit);
  }

  lemma FollowEnds(planets: Planets, limit: Option<nat>)
    requires KeysMatch(planets)
    ensures Follow(planets, Bound(planets, |planets.Keys|), limit, |planets.Keys|) == []
  {
    PageAt(planets, |planets.Keys|, limit);
  }

  lemma SlicesOne<T>(all: seq<T>, n: nat, i: nat)
    requires n != 0 && i < |all|
    ensures var next := i + Min(n, |all| - i);
            Slices(all, n, i) == [all[i..next]] + Slices(all, n, next)
  {}

  // What the client is shown are the slices of the listing.
  lemma {:induction false} FollowSlices(planets: Planets, limit: Option<nat>, i: nat)
    requires KeysMatch(planets) && i <= |planets.Keys| && PageLimit(limit) != 0
    ensures Follow(planets, Bound(planets, i), limit, i) == Slices(Listing(planets), PageLimit(limit), i)
    decreases |planets.Keys| - i
  {
    var all, n := Listing(planets), PageLimit(limit);
    assert |all| == |planets.Keys|;
    if i == |all| {
      FollowEnds(planets, limit);
    } else {
      var next := i + Min(n, |all| - i);
      calc {
        Follow(planets, Bound(planets, i), limit, i);
        { FollowOne(planets, limit, i); }
        [all[i..next]] + Follow(planets, Bound(planets, next), limit, next);
        { FollowSlices(planets, limit, next); }
        [all[i..next]] + Slices(all, n, next);
        { SlicesOne(all, n, i); }
        Slices(all, n, i);
      }
    }
  }

  lemma PageCount(left: nat, limit: nat)
    requires limit != 0
    ensures CeilDiv(left, limit) == if left == 0 then 0 else 1 + CeilDiv(left - Min(limit, left), limit)
  {
    if left == 0 {
      FloorAtMost(limit - 1, limit, 0);
    } else if left < limit {
      FloorAtLeast(left + limit - 1, limit, 1);
      FloorAtMost(left + limit - 1, limit, 1);
      FloorAtMost(limit - 1, limit, 0);
    } else {
      OneMoreQuotient(left - 1, limit);
    }
  }

  lemma OneMoreQuotient(x: nat, d: nat)
    requires d != 0
    ensures (x + d) / d == x / d + 1
  {
    FloorBounds(x, d);
    assert d * (x / d + 1) == d * (x / d) + d;
    FloorAtLeast(x + d, d, x / d + 1);
    FloorAtMost(x + d, d, x / d + 1);
  }

  // With any limit but zero, the pages put together are the whole listing: every stored planet
  // once, in ascending byte order, in as few pages as the limit allows. A limit of zero lists nothing.
  lemma PagingIsComplete(planets: Planets, limit: Option<nat>)
    requires KeysMatch(planets)
    ensures var pages := Follow(planets, None, limit, 0);
            var asked := if limit.None? then 10 else if limit.value > 30 then 30 else limit.value;
            && (Concat(pages) == Listing(planets) <==> limit != Some(0) || planets == map[])
            && (forall page :: page in pages ==> |page| <= asked)
            && (limit != Some(0) ==> |planets| <= asked * |pages| < |planets| + asked)
  {
    assert |planets.Keys| == |planets|;
    if limit != Some(0) {
      FollowSlices(planets, limit, 0);
      SlicesCover(Listing(planets), PageLimit(limit), 0);
      SlicesCount(Listing(planets), PageLimit(limit), 0);
      CeilBounds(|planets|, PageLimit(limit));
      assert Listing(planets)[0..] == Listing(planets);
    } else {
      PageAt(planets, 0, limit);
    }
  }

  // The listing holds exactly the stored planets, each once, in ascending order of address.
  lemma ListingIsRegistry(planets: Planets)
    requires KeysMatch(planets)
    ensures forall info: PlanetInfo :: info in Listing(planets) <==>
              info.contractAddr in planets && planets[info.contractAddr] == info
    ensures var all := Listing(planets);
            forall i, j :: 0 <= i < j < |all| ==> Before(all[i].contractAddr, all[j].contractAddr)
  {
    var keys := Ascending(planets.Keys);
    AscendingIsSorted(planets.Keys);
    forall info: PlanetInfo | info.contractAddr in planets && planets[info.contractAddr] == info
      ensures info in Listing(planets)
    {
      var i :| 0 <= i < |keys| && keys[i] == info.contractAddr;
      assert Listing(planets)[i] == info;
    }
    forall i | 0 <= i < |keys|
      ensures Listing(planets)[i].contractAddr == keys[i] && keys[i] in planets
    {
      assert keys[i] in keys;
    }
  }
}
