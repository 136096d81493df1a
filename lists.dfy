/** List semantics shared by the storage modules: every store keeps one
    array in `chrome.storage.local`, modelled here as a `seq` of records with
    a string key (`id`). */
module Lists {
  import opened Text

  /** The outcome of an operation that may throw an `Error` with a message. */
  datatype Result<T> = Ok(value: T) | Failure(error: string)

  /** The message every import throws when the parsed JSON is not an array. */
  const NOT_AN_ARRAY := "Ожидается массив JSON"

  /** `items.map(x => ({ ...x, id: x.id || uuid, ... }))`: every import stamps
      each record with `stamp`, handing it its own fresh id, in order. */
  function StampAll<T>(items: seq<T>, freshIds: seq<string>, now: string, stamp: (T, string, string) -> T): (r: seq<T>)
    requires |freshIds| == |items|
    ensures |r| == |items|
    ensures forall i :: 0 <= i < |items| ==> r[i] == stamp(items[i], freshIds[i], now)
  {
    if items == [] then []
    else [stamp(items[0], freshIds[0], now)] + StampAll(items[1..], freshIds[1..], now, stamp)
  }

  /** The keys of the records, in order. */
  function Keys<T>(s: seq<T>, key: T -> string): (ks: seq<string>)
    ensures |ks| == |s|
    ensures forall i :: 0 <= i < |s| ==> ks[i] == key(s[i])
  {
    if s == [] then [] else Keys(s[..|s| - 1], key) + [key(s[|s| - 1])]
  }

  /** `s.findIndex(x => x.id === id)`, with None for -1. */
  function FindIndex<T>(s: seq<T>, key: T -> string, id: string): (k: Option<nat>)
    ensures k.Some? ==> k.value < |s| && key(s[k.value]) == id
    ensures k.Some? ==> forall j :: 0 <= j < k.value ==> key(s[j]) != id
    ensures k.None? ==> forall j :: 0 <= j < |s| ==> key(s[j]) != id
  {
    if s == [] then None
    else if key(s[0]) == id then Some(0)
    else match FindIndex(s[1..], key, id)
      case Some(k) => assert s[1..][k] == s[k + 1]; Some(k + 1)
      case None => None
  }

  /** `s.find(x => x.id === id) || null`. */
  function FindById<T>(s: seq<T>, key: T -> string, id: string): (r: Option<T>)
    ensures r.Some? <==> id in Keys(s, key)
    ensures r.Some? ==> key(r.value) == id && r.value in s
  {
    match FindIndex(s, key, id)
    case Some(i) => Some(s[i])
    case None => None
  }

  /** `s.filter(x => x.id !== id)`. */
  function Without<T>(s: seq<T>, key: T -> string, id: string): (r: seq<T>)
    ensures |r| <= |s|
    ensures forall i :: 0 <= i < |r| ==> r[i] in s && key(r[i]) != id
    ensures forall i :: 0 <= i < |s| && key(s[i]) != id ==> s[i] in r
  {
    if s == [] then []
    else
      var p := Without(s[..|s| - 1], key, id);
      var x := s[|s| - 1];
      assert s == s[..|s| - 1] + [x];
      if key(x) != id then p + [x] else p
  }

  /** Filtering distributes over concatenation, so the kept records stay in
      their original relative order. */
  lemma {:induction false} WithoutConcat<T>(a: seq<T>, b: seq<T>, key: T -> string, id: string)
    ensures Without(a + b, key, id) == Without(a, key, id) + Without(b, key, id)
    decreases |b|
  {
    if b != [] {
      var b0 := b[..|b| - 1];
      var x := b[|b| - 1];
      assert (a + b)[..|a + b| - 1] == a + b0;
      assert (a + b)[|a + b| - 1] == x;
      WithoutConcat(a, b0, key, id);
      var tail := if key(x) != id then [x] else [];
      assert Without(a + b, key, id) == Without(a + b0, key, id) + tail;
      assert Without(b, key, id) == Without(b0, key, id) + tail;
    } else {
      assert a + b == a;
    }
  }

  /** A list without the key is left as it is. */
  lemma {:induction false} WithoutAbsent<T>(s: seq<T>, key: T -> string, id: string)
    requires id !in Keys(s, key)
    ensures Without(s, key, id) == s
  {
    if s != [] {
      var p := s[..|s| - 1];
      assert Keys(s, key)[..|p|] == Keys(p, key);
      WithoutAbsent(p, key, id);
      assert key(s[|s| - 1]) == Keys(s, key)[|s| - 1];
      assert s == p + [s[|s| - 1]];
    }
  }

  /** The save of a keyed record: replace the first record with the same key
      at its index, or append. */
  function Upsert<T>(s: seq<T>, key: T -> string, x: T): (r: seq<T>)
    ensures x in r
    ensures key(x) in Keys(s, key) ==> |r| == |s|
    ensures key(x) !in Keys(s, key) ==> r == s + [x]
    ensures forall i :: 0 <= i < |s| && key(s[i]) != key(x) ==> r[i] == s[i]
  {
    match FindIndex(s, key, key(x))
    case Some(i) => assert s[i := x][i] == x; s[i := x]
    case None => s + [x]
  }

  /** A save keeps the keys distinct and the saved record is what a lookup of
      its key then finds. */
  lemma UpsertKeepsKeysUnique<T>(s: seq<T>, key: T -> string, x: T)
    requires NoDup(Keys(s, key))
    ensures NoDup(Keys(Upsert(s, key, x), key))
    ensures FindById(Upsert(s, key, x), key, key(x)) == Some(x)
  {
    var r := Upsert(s, key, x);
    var ks := Keys(r, key);
    match FindIndex(s, key, key(x))
    case Some(i) =>
      forall a, b | 0 <= a < b < |ks| ensures ks[a] != ks[b] {
        assert Keys(s, key)[a] == key(s[a]) && Keys(s, key)[b] == key(s[b]);
      }
      assert FindIndex(r, key, key(x)) == Some(i);
    case None =>
      forall a, b | 0 <= a < b < |ks| ensures ks[a] != ks[b] {
        if b < |s| {
          assert Keys(s, key)[a] == key(s[a]) && Keys(s, key)[b] == key(s[b]);
        } else {
          assert Keys(s, key)[a] == key(s[a]);
        }
      }
      assert FindIndex(r, key, key(x)) == Some(|s|);
  }

  /** The buffer after `push` and `splice(0, length - cap)`: the newest `cap`
      records. */
  function Capped<T>(s: seq<T>, cap: nat): (r: seq<T>)
    ensures |r| <= cap || r == s
  {
    if |s| > cap then s[|s| - cap..] else s
  }

  /** Appending to a capped buffer: at most `cap` records remain, the new one is
      last, and the survivors are the newest of the old ones, in order. */
  lemma AppendCapped<T>(s: seq<T>, x: T, cap: nat)
    requires 1 <= cap && |s| <= cap
    ensures var r := Capped(s + [x], cap);
      |r| <= cap && r[|r| - 1] == x && r[..|r| - 1] == s[|s| + 1 - |r|..]
    ensures |s| < cap ==> Capped(s + [x], cap) == s + [x]
  {
    var r := Capped(s + [x], cap);
    assert (s + [x])[|s|] == x;
    if |s| + 1 > cap {
      assert r == (s + [x])[|s| + 1 - cap..];
      assert r[..|r| - 1] == s[|s| + 1 - cap..];
    }
  }

  /** `s.slice(-limit)`: for a positive limit, the last `min(limit, |s|)`
      records; `slice(-0)` is the whole list; a negative limit drops the
      first `-limit`. */
  function TailSlice<T>(s: seq<T>, limit: int): (r: seq<T>)
    ensures limit > 0 ==> |r| == (if limit < |s| then limit else |s|)
    ensures limit == 0 ==> r == s
    ensures limit < 0 ==> |r| == (if -limit < |s| then |s| + limit else 0)
    ensures |r| <= |s| && r == s[|s| - |r|..]
  {
    var start := if limit > 0 then (if limit < |s| then |s| - limit else 0)
                 else if -limit < |s| then -limit else |s|;
    s[start..]
  }

  /** `s.slice(0, end)`. */
  function HeadSlice<T>(s: seq<T>, end: int): (r: seq<T>)
    ensures end >= 0 ==> |r| == (if end < |s| then end else |s|)
    ensures end < 0 ==> |r| == (if -end < |s| then |s| + end else 0)
    ensures |r| <= |s| && r == s[..|r|]
  {
    var stop := if end >= 0 then (if end < |s| then end else |s|)
                else if -end < |s| then |s| + end else 0;
    s[..stop]
  }

  // Term-count search: score, keep positives, stable descending sort.

  /** A record paired with its score, as the searches' `{ template, score }`. */
  datatype Scored<T> = Scored(item: T, score: int)

  /** The number of terms (counted with repetition) that occur in the haystack. */
  function TermCount(haystack: string, terms: seq<string>): (n: nat)
    ensures n <= |terms|
  {
    if terms == [] then 0
    else
      var hit := if Includes(haystack, terms[|terms| - 1]) then 1 else 0;
      TermCount(haystack, terms[..|terms| - 1]) + hit
  }

  /** A score is positive exactly when some term occurs in the haystack, and
      it is the number of terms when all of them occur. */
  lemma {:induction false} TermCountPositive(haystack: string, terms: seq<string>)
    ensures TermCount(haystack, terms) > 0 <==> exists i :: 0 <= i < |terms| && Contains(haystack, terms[i])
    ensures (forall i :: 0 <= i < |terms| ==> Contains(haystack, terms[i])) ==> TermCount(haystack, terms) == |terms|
  {
    if terms != [] {
      var p := terms[..|terms| - 1];
      TermCountPositive(haystack, p);
      if exists i :: 0 <= i < |p| && Contains(haystack, p[i]) {
        var i :| 0 <= i < |p| && Contains(haystack, p[i]);
        assert terms[i] == p[i];
      }
      if exists i :: 0 <= i < |terms| && Contains(haystack, terms[i]) {
        var i :| 0 <= i < |terms| && Contains(haystack, terms[i]);
        if i < |p| { assert p[i] == terms[i]; }
      }
      if forall i :: 0 <= i < |terms| ==> Contains(haystack, terms[i]) {
        assert forall i :: 0 <= i < |p| ==> Contains(haystack, p[i]) by {
          forall i | 0 <= i < |p| ensures Contains(haystack, p[i]) { assert p[i] == terms[i]; }
        }
      }
    }
  }

  /** `for (const term of terms) if (haystack.includes(term)) score++`. */
  method CountTerms(haystack: string, terms: seq<string>) returns (score: nat)
    ensures score == TermCount(haystack, terms)
  {
    score := 0;
    for i := 0 to |terms|
      invariant score == TermCount(haystack, terms[..i])
    {
      assert terms[..i + 1][..i] == terms[..i];
      if Includes(haystack, terms[i]) {
        score := score + 1;
      }
    }
    assert terms[..|terms|] == terms;
  }

  /** The records whose score is positive, in order. */
  function Positive<T>(ps: seq<Scored<T>>): (r: seq<Scored<T>>)
    ensures |r| <= |ps|
    ensures forall i :: 0 <= i < |r| ==> r[i].score > 0 && r[i] in ps
  {
    if ps == [] then []
    else
      var p := Positive(ps[..|ps| - 1]);
      var x := ps[|ps| - 1];
      if x.score > 0 then p + [x] else p
  }

  /** Nothing positive is dropped. */
  lemma {:induction false} PositiveKeepsAll<T>(ps: seq<Scored<T>>)
    ensures forall i :: 0 <= i < |ps| && ps[i].score > 0 ==> ps[i] in Positive(ps)
    decreases |ps|
  {
    if ps != [] {
      var n := |ps| - 1;
      PositiveKeepsAll(ps[..n]);
      forall i | 0 <= i < |ps| && ps[i].score > 0
        ensures ps[i] in Positive(ps)
      {
        if i < n {
          assert ps[..n][i] == ps[i];
        }
      }
    }
  }

  /** The filter works record by record: it keeps exactly the positive
      records, in their input order. */
  lemma {:induction false} PositiveConcat<T>(a: seq<Scored<T>>, b: seq<Scored<T>>)
    ensures Positive(a + b) == Positive(a) + Positive(b)
    ensures |b| == 1 ==> Positive(b) == (if b[0].score > 0 then b else [])
    decreases |b|
  {
    if b == [] {
      assert a + b == a;
    } else {
      var n := |b| - 1;
      assert (a + b)[..|a + b| - 1] == a + b[..n];
      PositiveConcat(a, b[..n]);
      if |b| == 1 {
        assert b[..n] == [];
      }
    }
  }

  /** The records whose score is k, in order: the tie class of k. */
  function ScoreClass<T>(ps: seq<Scored<T>>, k: int): seq<Scored<T>> {
    if ps == [] then []
    else
      var tail := if ps[|ps| - 1].score == k then [ps[|ps| - 1]] else [];
      ScoreClass(ps[..|ps| - 1], k) + tail
  }

  predicate SortedDesc<T>(ps: seq<Scored<T>>) {
    forall i, j :: 0 <= i < j < |ps| ==> ps[i].score >= ps[j].score
  }

  /** Insert x after every record scoring at least as much as x: it moves back
      only past lower scores, so it lands behind its ties. */
  function Insert<T>(r: seq<Scored<T>>, x: Scored<T>): (q: seq<Scored<T>>)
    ensures |q| == |r| + 1
  {
    if r == [] || r[|r| - 1].score >= x.score then r + [x]
    else Insert(r[..|r| - 1], x) + [r[|r| - 1]]
  }

  /** `Array.prototype.sort((a, b) => b.score - a.score)`, which is stable. */
  function SortDesc<T>(ps: seq<Scored<T>>): (q: seq<Scored<T>>)
    ensures |q| == |ps|
  {
    if ps == [] then [] else Insert(SortDesc(ps[..|ps| - 1]), ps[|ps| - 1])
  }

  lemma {:induction false} InsertPermutes<T>(r: seq<Scored<T>>, x: Scored<T>)
    ensures multiset(Insert(r, x)) == multiset(r) + multiset{x}
  {
    if !(r == [] || r[|r| - 1].score >= x.score) {
      var p := r[..|r| - 1];
      InsertPermutes(p, x);
      assert r == p + [r[|r| - 1]];
    }
  }

  lemma {:induction false} InsertSorted<T>(r: seq<Scored<T>>, x: Scored<T>)
    requires SortedDesc(r)
    ensures SortedDesc(Insert(r, x))
  {
    if !(r == [] || r[|r| - 1].score >= x.score) {
      var p := r[..|r| - 1];
      var y := r[|r| - 1];
      InsertSorted(p, x);
      InsertPermutes(p, x);
      var q := Insert(p, x);
      forall i | 0 <= i < |q| ensures q[i].score >= y.score {
        assert q[i] in multiset(p) + multiset{x};
        if q[i] != x {
          assert q[i] in p;
        }
      }
    }
  }

  lemma {:induction false} SortDescSorted<T>(ps: seq<Scored<T>>)
    ensures SortedDesc(SortDesc(ps))
    ensures multiset(SortDesc(ps)) == multiset(ps)
  {
    if ps != [] {
      var p := ps[..|ps| - 1];
      SortDescSorted(p);
      InsertSorted(SortDesc(p), ps[|ps| - 1]);
      InsertPermutes(SortDesc(p), ps[|ps| - 1]);
      assert ps == p + [ps[|ps| - 1]];
    }
  }

  lemma {:induction false} ScoreClassSnoc<T>(ps: seq<Scored<T>>, x: Scored<T>, k: int)
    ensures ScoreClass(ps + [x], k) == ScoreClass(ps, k) + (if x.score == k then [x] else [])
  {
    assert (ps + [x])[..|ps|] == ps;
  }

  /** Insertion leaves every tie class in order, with x at the end of its own. */
  lemma {:induction false} InsertStable<T>(r: seq<Scored<T>>, x: Scored<T>, k: int)
    ensures ScoreClass(Insert(r, x), k) == ScoreClass(r, k) + (if x.score == k then [x] else [])
  {
    if r == [] || r[|r| - 1].score >= x.score {
      ScoreClassSnoc(r, x, k);
    } else {
      var p := r[..|r| - 1];
      var y := r[|r| - 1];
      InsertStable(p, x, k);
      ScoreClassSnoc(Insert(p, x), y, k);
      ScoreClassSnoc(p, y, k);
      assert r == p + [y];
    }
  }

  /** Stability: records with equal scores keep their input order. */
  lemma {:induction false} SortDescStable<T>(ps: seq<Scored<T>>, k: int)
    ensures ScoreClass(SortDesc(ps), k) == ScoreClass(ps, k)
  {
    if ps != [] {
      var p := ps[..|ps| - 1];
      var x := ps[|ps| - 1];
      SortDescStable(p, k);
      InsertStable(SortDesc(p), x, k);
      ScoreClassSnoc(p, x, k);
      assert ps == p + [x];
    }
  }

  /** `.map(r => r.item)`. */
  function Items<T>(ps: seq<Scored<T>>): (r: seq<T>)
    ensures |r| == |ps|
    ensures forall i :: 0 <= i < |ps| ==> r[i] == ps[i].item
  {
    if ps == [] then [] else Items(ps[..|ps| - 1]) + [ps[|ps| - 1].item]
  }

  /** Each record scored by the number of terms its lowercased haystack holds. */
  function ScoreAll<T>(items: seq<T>, haystack: T -> string, terms: seq<string>): (ps: seq<Scored<T>>)
    ensures |ps| == |items|
    ensures forall i :: 0 <= i < |items| ==>
      ps[i] == Scored(items[i], TermCount(Lower(haystack(items[i])), terms))
  {
    if items == [] then []
    else
      var x := items[|items| - 1];
      ScoreAll(items[..|items| - 1], haystack, terms) + [Scored(x, TermCount(Lower(haystack(x)), terms))]
  }

  /** `!query || !query.trim()`. */
  predicate Blank(query: string) { Trim(query) == [] }

  /** `query.toLowerCase().split(/\s+/).filter(Boolean)`. */
  function Terms(query: string): seq<string> { Words(Lower(query)) }

  /** The scored records a non-blank search returns, best first. */
  function Ranked<T>(items: seq<T>, haystack: T -> string, terms: seq<string>): seq<Scored<T>> {
    SortDesc(Positive(ScoreAll(items, haystack, terms)))
  }

  /** The term-count search of the template and knowledge stores. */
  function Search<T>(items: seq<T>, haystack: T -> string, query: string): seq<T> {
    if Blank(query) then items else Items(Ranked(items, haystack, Terms(query)))
  }

  /** What a non-blank search ranks: exactly the records with a positive term
      count (as a multiset), best first, ties in input order, never more than
      the input. */
  lemma RankedProperties<T>(items: seq<T>, haystack: T -> string, terms: seq<string>)
    ensures var r := Ranked(items, haystack, terms);
      && SortedDesc(r)
      && multiset(r) == multiset(Positive(ScoreAll(items, haystack, terms)))
      && (forall k :: ScoreClass(r, k) == ScoreClass(Positive(ScoreAll(items, haystack, terms)), k))
      && |r| <= |items|
      && (forall i :: 0 <= i < |r| ==>
            r[i].item in items && r[i].score == TermCount(Lower(haystack(r[i].item)), terms) > 0)
  {
    var pos := Positive(ScoreAll(items, haystack, terms));
    var r := Ranked(items, haystack, terms);
    SortDescSorted(pos);
    forall k ensures ScoreClass(r, k) == ScoreClass(pos, k) {
      SortDescStable(pos, k);
    }
    forall i | 0 <= i < |r|
      ensures r[i].item in items && r[i].score == TermCount(Lower(haystack(r[i].item)), terms) > 0
    {
      assert r[i] in multiset(pos);
      var j :| 0 <= j < |pos| && pos[j] == r[i];
      var all := ScoreAll(items, haystack, terms);
      var m :| 0 <= m < |all| && all[m] == pos[j];
      assert all[m].item == items[m];
    }
  }

  /** A blank query returns every record; any other returns exactly the
      records whose lowercased haystack holds some term of the query. */
  lemma SearchMatches<T>(items: seq<T>, haystack: T -> string, query: string)
    ensures Blank(query) ==> Search(items, haystack, query) == items
    ensures |Search(items, haystack, query)| <= |items|
    ensures !Blank(query) ==> forall x :: x in Search(items, haystack, query) <==>
      x in items && TermCount(Lower(haystack(x)), Terms(query)) > 0
  {
    if !Blank(query) {
      var terms := Terms(query);
      var r := Ranked(items, haystack, terms);
      var all := ScoreAll(items, haystack, terms);
      RankedProperties(items, haystack, terms);
      PositiveKeepsAll(all);
      var s := Search(items, haystack, query);
      forall x ensures x in s <==> x in items && TermCount(Lower(haystack(x)), terms) > 0 {
        if x in s {
          var i :| 0 <= i < |s| && s[i] == x;
          assert r[i].item == x;
        }
        if x in items && TermCount(Lower(haystack(x)), terms) > 0 {
          var m :| 0 <= m < |items| && items[m] == x;
          assert all[m] in Positive(all);
          assert all[m] in multiset(r);
          var i :| 0 <= i < |r| && r[i] == all[m];
          assert s[i] == x;
        }
      }
    }
  }

  /** `for (const term of terms)` scoring and the positive filter, then the
      stable sort. */
  method SearchItems<T>(items: seq<T>, haystack: T -> string, query: string) returns (r: seq<T>)
    ensures r == Search(items, haystack, query)
  {
    if Blank(query) {
      return items;
    }
    var terms := Terms(query);
    var ranked: seq<Scored<T>> := [];
    for i := 0 to |items|
      invariant ranked == Positive(ScoreAll(items[..i], haystack, terms))
    {
      assert items[..i + 1][..i] == items[..i];
      var score := CountTerms(Lower(haystack(items[i])), terms);
      if score > 0 {
        ranked := ranked + [Scored(items[i], score)];
      }
    }
    assert items[..|items|] == items;
    r := Items(SortDesc(ranked));
  }
}
