/** The per-tournament claim book that both revisions of the event monitor
    keep in `data.tournaments`, and the fold of `commitmentJoined` logs into
    it. The two revisions store different claim values (a transaction hash,
    or a record of transaction, block and timestamp), so the book is generic
    in the value type `V`; each log becomes one `Write` of its value. */
module Tournaments {
  import opened Common
  import opened OrderedMap

  /** `{ claims: {...}, address }`: claims keyed by root, in insertion order. */
  datatype Tournament<V> = Tournament(address: Address, claims: OMap<Root, V>)

  /** `data.tournaments`, keyed by the emitting contract's address. */
  type Book<V> = map<Address, Tournament<V>>

  /** The assignment `data.tournaments[address].claims[root] = value` one log performs. */
  datatype Write<V> = Write(address: Address, root: Root, value: V)

  /** `data.tournaments[a] || { claims: {}, address: a }` */
  function Entry<V>(t: Book<V>, a: Address): (r: Tournament<V>)
    ensures a in t ==> r == t[a]
    ensures a !in t ==> r.address == a && r.claims.keys == [] && r.claims.values == map[]
  {
    if a in t then t[a] else Tournament(a, Empty())
  }

  /** One iteration of the claim loop: fetch or create the tournament, set
      the claim, store the tournament back under its address. */
  function Upsert<V>(t: Book<V>, w: Write<V>): (r: Book<V>)
    ensures r.Keys == t.Keys + {w.address}
    ensures forall a :: a in t && a != w.address ==> r[a] == t[a]
    ensures r[w.address].address == Entry(t, w.address).address
    ensures r[w.address].claims == Put(Entry(t, w.address).claims, w.root, w.value)
  {
    var e := Entry(t, w.address);
    t[w.address := e.(claims := Put(e.claims, w.root, w.value))]
  }

  /** The claim loop over a whole batch, in log order. */
  function Fold<V>(t: Book<V>, ws: seq<Write<V>>): Book<V>
    decreases |ws|
  {
    if ws == [] then t else Upsert(Fold(t, ws[..|ws| - 1]), ws[|ws| - 1])
  }

  /** `toVerify`: the tournament of every processed log, one entry per log. */
  function Targets<V>(ws: seq<Write<V>>): (r: seq<Address>)
    ensures |r| == |ws|
    ensures forall i :: 0 <= i < |ws| ==> r[i] == ws[i].address
  {
    seq(|ws|, i requires 0 <= i < |ws| => ws[i].address)
  }

  /** The addresses a batch writes to. */
  function Touched<V>(ws: seq<Write<V>>): set<Address> {
    set i | 0 <= i < |ws| :: ws[i].address
  }

  /** `data.tournaments[a].claims[r]`, when both exist. */
  function Lookup<V>(t: Book<V>, a: Address, r: Root): Option<V> {
    if a in t && r in t[a].claims.values then Some(t[a].claims.values[r]) else None
  }

  predicate Hits<V>(w: Write<V>, a: Address, r: Root) {
    w.address == a && w.root == r
  }

  /** Reference definition of a claim after a batch: the value of the last
      write to `(a, r)`, or `base` when the batch never writes there. */
  function LastValue<V>(base: Option<V>, ws: seq<Write<V>>, a: Address, r: Root): Option<V>
    decreases |ws|
  {
    if ws == [] then base
    else if Hits(ws[|ws| - 1], a, r) then Some(ws[|ws| - 1].value)
    else LastValue(base, ws[..|ws| - 1], a, r)
  }

  /** Every write of the batch has left its tournament and claim key in `s`. */
  predicate Covers<V>(s: Book<V>, ws: seq<Write<V>>) {
    forall i :: 0 <= i < |ws| ==>
      ws[i].address in s && ws[i].root in s[ws[i].address].claims.values
  }

  /** Dispute condition: `Object.getOwnPropertyNames(claims).length > 1`. */
  predicate Disputed<V>(t: Book<V>, a: Address) {
    a in t && Size(t[a].claims) > 1
  }

  /** The `toVerify` entries the dispute loop alerts on, in loop order. */
  function Flagged<V>(t: Book<V>, vs: seq<Address>): (r: seq<Address>)
    ensures |r| <= |vs|
    ensures forall x :: x in r ==> Disputed(t, x) && x in vs
    decreases |vs|
  {
    if vs == [] then []
    else Flagged(t, vs[..|vs| - 1]) + (if Disputed(t, vs[|vs| - 1]) then [vs[|vs| - 1]] else [])
  }

  // ---------------------------------------------------------------------
  // Upsert and fold: what a claim holds afterwards

  lemma UpsertLookup<V>(t: Book<V>, w: Write<V>, a: Address, r: Root)
    ensures Lookup(Upsert(t, w), a, r) == if Hits(w, a, r) then Some(w.value) else Lookup(t, a, r)
  {
  }

  /** A claim after the fold is the last value written to it in the batch,
      or its stored value when the batch does not write it. */
  lemma {:induction false} FoldLookup<V>(t: Book<V>, ws: seq<Write<V>>, a: Address, r: Root)
    ensures Lookup(Fold(t, ws), a, r) == LastValue(Lookup(t, a, r), ws, a, r)
    decreases |ws|
  {
    if ws != [] {
      FoldLookup(t, ws[..|ws| - 1], a, r);
      UpsertLookup(Fold(t, ws[..|ws| - 1]), ws[|ws| - 1], a, r);
    }
  }

  lemma {:induction false} LastValueAt<V>(base: Option<V>, ws: seq<Write<V>>, j: nat)
    requires j < |ws|
    requires forall k :: j < k < |ws| ==> !Hits(ws[k], ws[j].address, ws[j].root)
    ensures LastValue(base, ws, ws[j].address, ws[j].root) == Some(ws[j].value)
    decreases |ws|
  {
    if j < |ws| - 1 {
      var init := ws[..|ws| - 1];
      assert init[j] == ws[j];
      LastValueAt(base, init, j);
    }
  }

  lemma {:induction false} LastValueMissed<V>(base: Option<V>, ws: seq<Write<V>>, a: Address, r: Root)
    requires forall k :: 0 <= k < |ws| ==> !Hits(ws[k], a, r)
    ensures LastValue(base, ws, a, r) == base
    decreases |ws|
  {
    if ws != [] {
      LastValueMissed(base, ws[..|ws| - 1], a, r);
    }
  }

  lemma {:induction false} LastValueIdempotent<V>(base: Option<V>, ws: seq<Write<V>>, a: Address, r: Root)
    ensures LastValue(LastValue(base, ws, a, r), ws, a, r) == LastValue(base, ws, a, r)
    decreases |ws|
  {
    if ws != [] && !Hits(ws[|ws| - 1], a, r) {
      LastValueIdempotent(base, ws[..|ws| - 1], a, r);
    }
  }

  /** Last writer wins: for the last log of the batch with address `a` and
      root `r`, the claim `tournaments[a].claims[r]` holds that log's value. */
  lemma LastWriterWins<V>(t: Book<V>, ws: seq<Write<V>>, j: nat)
    requires j < |ws|
    requires forall k :: j < k < |ws| ==> !Hits(ws[k], ws[j].address, ws[j].root)
    ensures ws[j].address in Fold(t, ws)
    ensures ws[j].root in Fold(t, ws)[ws[j].address].claims.values
    ensures Fold(t, ws)[ws[j].address].claims.values[ws[j].root] == ws[j].value
  {
    FoldLookup(t, ws, ws[j].address, ws[j].root);
    LastValueAt(Lookup(t, ws[j].address, ws[j].root), ws, j);
  }

  /** A claim the batch never writes keeps its stored value (or stays absent). */
  lemma UnwrittenClaimKept<V>(t: Book<V>, ws: seq<Write<V>>, a: Address, r: Root)
    requires forall k :: 0 <= k < |ws| ==> !Hits(ws[k], a, r)
    ensures Lookup(Fold(t, ws), a, r) == Lookup(t, a, r)
  {
    FoldLookup(t, ws, a, r);
    LastValueMissed(Lookup(t, a, r), ws, a, r);
  }

  // ---------------------------------------------------------------------
  // Nothing is removed, order is kept, new tournaments start empty

  /** No stored tournament or claim is removed; a tournament's address is
      never changed; stored claims keep their order, new ones follow. */
  lemma {:induction false} FoldGrows<V>(t: Book<V>, ws: seq<Write<V>>)
    ensures t.Keys <= Fold(t, ws).Keys
    ensures forall a :: a in t ==>
              Fold(t, ws)[a].address == t[a].address &&
              t[a].claims.keys <= Fold(t, ws)[a].claims.keys
    decreases |ws|
  {
    if ws != [] {
      FoldGrows(t, ws[..|ws| - 1]);
    }
  }

  /** The tournaments after the fold are the stored ones plus those the batch
      writes to; one first seen in the batch carries the log's own address. */
  lemma {:induction false} FoldDomain<V>(t: Book<V>, ws: seq<Write<V>>)
    ensures Fold(t, ws).Keys == t.Keys + Touched(ws)
    ensures forall a :: a in Fold(t, ws) && a !in t ==> Fold(t, ws)[a].address == a
    decreases |ws|
  {
    FoldKeys(t, ws);
    FoldNewAddress(t, ws);
  }

  lemma {:induction false} FoldKeys<V>(t: Book<V>, ws: seq<Write<V>>)
    ensures Fold(t, ws).Keys == t.Keys + Touched(ws)
    decreases |ws|
  {
    if ws != [] {
      var init := ws[..|ws| - 1];
      var w := ws[|ws| - 1];
      FoldKeys(t, init);
      assert ws == init + [w];
      TouchedSnoc(init, w);
    }
  }

  lemma {:induction false} FoldNewAddress<V>(t: Book<V>, ws: seq<Write<V>>)
    ensures forall a :: a in Fold(t, ws) && a !in t ==> Fold(t, ws)[a].address == a
    decreases |ws|
  {
    if ws != [] {
      var init := ws[..|ws| - 1];
      FoldNewAddress(t, init);
      UpsertNewAddress(t, Fold(t, init), ws[|ws| - 1]);
    }
  }

  lemma UpsertNewAddress<V>(t: Book<V>, m: Book<V>, w: Write<V>)
    requires forall a :: a in m && a !in t ==> m[a].address == a
    ensures forall a :: a in Upsert(m, w) && a !in t ==> Upsert(m, w)[a].address == a
  {
  }

  lemma TouchedSnoc<V>(ws: seq<Write<V>>, w: Write<V>)
    ensures Touched(ws + [w]) == Touched(ws) + {w.address}
  {
    var xs := ws + [w];
    forall x ensures x in Touched(xs) <==> x in Touched(ws) + {w.address} {
      if x in Touched(xs) {
        var i :| 0 <= i < |xs| && xs[i].address == x;
        if i < |ws| { assert ws[i] == xs[i]; }
      }
      if x in Touched(ws) {
        var i :| 0 <= i < |ws| && ws[i].address == x;
        assert xs[i] == ws[i];
      }
      if x == w.address {
        assert xs[|ws|] == w;
      }
    }
  }

  /** A claim present before one upsert is still present after it. */
  lemma UpsertKeepsClaim<V>(m: Book<V>, w: Write<V>, a: Address, r: Root)
    requires a in m && r in m[a].claims.values
    ensures a in Upsert(m, w) && r in Upsert(m, w)[a].claims.values
  {
  }

  /** After the fold every write of the batch is present in the book. */
  lemma {:induction false} FoldCovers<V>(t: Book<V>, ws: seq<Write<V>>)
    ensures Covers(Fold(t, ws), ws)
    decreases |ws|
  {
    if ws != [] {
      var init := ws[..|ws| - 1];
      var w := ws[|ws| - 1];
      FoldCovers(t, init);
      var m := Fold(t, init);
      assert Fold(t, ws) == Upsert(m, w);
      forall i | 0 <= i < |ws|
        ensures ws[i].address in Upsert(m, w) && ws[i].root in Upsert(m, w)[ws[i].address].claims.values
      {
        if i < |init| {
          assert ws[i] == init[i];
          UpsertKeepsClaim(m, w, ws[i].address, ws[i].root);
        }
      }
    }
  }

  /** An upsert of a claim key that is already present only changes its value. */
  lemma UpsertPresentKeepsShape<V>(m: Book<V>, w: Write<V>)
    requires w.address in m && w.root in m[w.address].claims.values
    ensures Upsert(m, w).Keys == m.Keys
    ensures forall a :: a in m ==>
              Upsert(m, w)[a].address == m[a].address &&
              Upsert(m, w)[a].claims.keys == m[a].claims.keys
  {
  }

  /** Folding writes whose keys are all present only changes claim values:
      the tournaments, their addresses and their key order stay as they are. */
  lemma {:induction false} FoldKeepsShape<V>(s: Book<V>, ws: seq<Write<V>>)
    requires Covers(s, ws)
    ensures Fold(s, ws).Keys == s.Keys
    ensures forall a :: a in s ==>
              Fold(s, ws)[a].address == s[a].address &&
              Fold(s, ws)[a].claims.keys == s[a].claims.keys
    decreases |ws|
  {
    if ws != [] {
      var init := ws[..|ws| - 1];
      var w := ws[|ws| - 1];
      assert Covers(s, init) by {
        forall i | 0 <= i < |init| ensures init[i].address in s && init[i].root in s[init[i].address].claims.values {
          assert init[i] == ws[i];
        }
      }
      FoldKeepsShape(s, init);
      var m := Fold(s, init);
      assert Fold(s, ws) == Upsert(m, w);
      assert w.address in s && w.root in s[w.address].claims.values;
      assert w.root in s[w.address].claims.keys;
      assert w.root in m[w.address].claims.values;
      UpsertPresentKeepsShape(m, w);
    }
  }

  /** Re-ingesting a batch that was already folded leaves the book unchanged,
      which is what makes re-delivery of the same logs harmless. */
  lemma FoldIdempotent<V>(t: Book<V>, ws: seq<Write<V>>)
    ensures Fold(Fold(t, ws), ws) == Fold(t, ws)
  {
    var f := Fold(t, ws);
    var g := Fold(f, ws);
    FoldCovers(t, ws);
    FoldKeepsShape(f, ws);
    forall a | a in f ensures g[a] == f[a] {
      RefoldTournament(t, ws, a);
    }
  }

  lemma RefoldTournament<V>(t: Book<V>, ws: seq<Write<V>>, a: Address)
    requires a in Fold(t, ws)
    ensures a in Fold(Fold(t, ws), ws)
    ensures Fold(Fold(t, ws), ws)[a] == Fold(t, ws)[a]
  {
    var f := Fold(t, ws);
    var g := Fold(f, ws);
    FoldCovers(t, ws);
    FoldKeepsShape(f, ws);
    forall r | r in f[a].claims.values
      ensures r in g[a].claims.values && g[a].claims.values[r] == f[a].claims.values[r]
    {
      RefoldClaim(t, ws, a, r);
    }
    TournamentExt(g[a], f[a]);
  }

  /** Two tournaments with the same address, the same claim order and the
      same value for every claim are equal. */
  lemma TournamentExt<V>(x: Tournament<V>, y: Tournament<V>)
    requires x.address == y.address && x.claims.keys == y.claims.keys
    requires forall r :: r in y.claims.values ==> r in x.claims.values && x.claims.values[r] == y.claims.values[r]
    ensures x == y
  {
    assert x.claims.values.Keys == y.claims.values.Keys by {
      forall r | r in x.claims.values ensures r in y.claims.values {
        assert r in x.claims.keys;
      }
    }
    assert x.claims.values == y.claims.values;
  }

  lemma RefoldClaim<V>(t: Book<V>, ws: seq<Write<V>>, a: Address, r: Root)
    ensures Lookup(Fold(Fold(t, ws), ws), a, r) == Lookup(Fold(t, ws), a, r)
  {
    FoldLookup(Fold(t, ws), ws, a, r);
    FoldLookup(t, ws, a, r);
    LastValueIdempotent(Lookup(t, a, r), ws, a, r);
  }

  /** Folding two batches one after the other equals folding their
      concatenation: successive runs compose. */
  lemma {:induction false} FoldAppend<V>(t: Book<V>, xs: seq<Write<V>>, ys: seq<Write<V>>)
    ensures Fold(t, xs + ys) == Fold(Fold(t, xs), ys)
    decreases |ys|
  {
    if ys == [] {
      assert xs + ys == xs;
    } else {
      assert (xs + ys)[..|xs + ys| - 1] == xs + ys[..|ys| - 1];
      FoldAppend(t, xs, ys[..|ys| - 1]);
    }
  }

  /** A batch that starts by repeating the tail `ys` of the previous batch
      leaves the book as if the repeated writes had been delivered once. */
  lemma FoldOverlap<V>(t: Book<V>, xs: seq<Write<V>>, ys: seq<Write<V>>, zs: seq<Write<V>>)
    ensures Fold(Fold(t, xs + ys), ys + zs) == Fold(t, xs + ys + zs)
  {
    var m := Fold(t, xs);
    FoldAppend(t, xs, ys);
    FoldAppend(Fold(t, xs + ys), ys, zs);
    FoldIdempotent(m, ys);
    FoldAppend(t, xs + ys, zs);
  }

  /** Every tournament records the address it is stored under, as the
      loop's fresh `{ claims: {}, address }` objects do. */
  predicate Keyed<V>(t: Book<V>) {
    forall a :: a in t ==> t[a].address == a
  }

  /** The fold keeps a consistent book consistent. */
  lemma FoldKeyed<V>(t: Book<V>, ws: seq<Write<V>>)
    requires Keyed(t)
    ensures Keyed(Fold(t, ws))
  {
    FoldGrows(t, ws);
    FoldDomain(t, ws);
  }

  // ---------------------------------------------------------------------
  // Messages

  /** The messages the dispute loop builds for a sequence of addresses, one
      per address, by `msg` from the address's tournament. */
  function Messages<V, A>(t: Book<V>, keys: seq<Address>, msg: Tournament<V> -> A): seq<A>
    decreases |keys|
  {
    if keys == [] then []
    else
      var k := keys[|keys| - 1];
      Messages(t, keys[..|keys| - 1], msg) + (if k in t then [msg(t[k])] else [])
  }

  /** With every address in the book, message `i` is built from tournament
      `keys[i]`. */
  lemma {:induction false} MessagesEach<V, A>(t: Book<V>, keys: seq<Address>, msg: Tournament<V> -> A)
    requires forall i :: 0 <= i < |keys| ==> keys[i] in t
    ensures |Messages(t, keys, msg)| == |keys|
    ensures forall i :: 0 <= i < |keys| ==> Messages(t, keys, msg)[i] == msg(t[keys[i]])
    decreases |keys|
  {
    if keys != [] {
      var init := keys[..|keys| - 1];
      assert forall i :: 0 <= i < |init| ==> init[i] == keys[i];
      MessagesEach(t, init, msg);
    }
  }

  lemma {:induction false} MessagesAppend<V, A>(t: Book<V>, xs: seq<Address>, ys: seq<Address>, msg: Tournament<V> -> A)
    ensures Messages(t, xs + ys, msg) == Messages(t, xs, msg) + Messages(t, ys, msg)
    decreases |ys|
  {
    if ys == [] {
      assert xs + ys == xs;
    } else {
      assert (xs + ys)[..|xs + ys| - 1] == xs + ys[..|ys| - 1];
      MessagesAppend(t, xs, ys[..|ys| - 1], msg);
    }
  }

  // ---------------------------------------------------------------------
  // Dispute detection

  /** A tournament that is disputed stays disputed after any later batch. */
  lemma DisputeStays<V>(t: Book<V>, ws: seq<Write<V>>, a: Address)
    requires Disputed(t, a)
    ensures Disputed(Fold(t, ws), a)
    ensures |t[a].claims.keys| <= |Fold(t, ws)[a].claims.keys|
  {
    FoldGrows(t, ws);
  }

  /** Each `toVerify` entry of a disputed tournament yields one alert and the
      others none: a tournament seen k times in the batch alerts k times. */
  lemma {:induction false} FlaggedCount<V>(t: Book<V>, vs: seq<Address>, a: Address)
    ensures multiset(Flagged(t, vs))[a] == if Disputed(t, a) then multiset(vs)[a] else 0
    decreases |vs|
  {
    if vs != [] {
      var init := vs[..|vs| - 1];
      assert vs == init + [vs[|vs| - 1]];
      FlaggedCount(t, init, a);
    }
  }

  /** The count of `x` in `s` is the number of positions holding it. */
  lemma {:induction false} CountPositions(s: seq<Address>, x: Address)
    ensures |set i | 0 <= i < |s| && s[i] == x| == multiset(s)[x]
    decreases |s|
  {
    if s != [] {
      var init := s[..|s| - 1];
      CountPositions(init, x);
      assert s == init + [s[|s| - 1]];
      var all := set i | 0 <= i < |s| && s[i] == x;
      var before := set i | 0 <= i < |init| && init[i] == x;
      if s[|s| - 1] == x {
        assert all == before + {|s| - 1};
      } else {
        assert all == before;
      }
    }
  }

  /** No alert at all exactly when no entry's tournament holds two claims. */
  lemma {:induction false} FlaggedEmpty<V>(t: Book<V>, vs: seq<Address>)
    ensures Flagged(t, vs) == [] <==> forall i :: 0 <= i < |vs| ==> !Disputed(t, vs[i])
    decreases |vs|
  {
    if vs != [] {
      var init := vs[..|vs| - 1];
      FlaggedEmpty(t, init);
      assert forall i :: 0 <= i < |init| ==> init[i] == vs[i];
    }
  }

  /** The dispute loop over two parts of `toVerify` is the two loops in turn. */
  lemma {:induction false} FlaggedAppend<V>(t: Book<V>, xs: seq<Address>, ys: seq<Address>)
    ensures Flagged(t, xs + ys) == Flagged(t, xs) + Flagged(t, ys)
    decreases |ys|
  {
    if ys == [] {
      assert xs + ys == xs;
    } else {
      assert (xs + ys)[..|xs + ys| - 1] == xs + ys[..|ys| - 1];
      FlaggedAppend(t, xs, ys[..|ys| - 1]);
    }
  }
}
