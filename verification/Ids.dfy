/** Identifiers, vectors and the orders the simulation uses on them. */
module Ids {

  type Id = string

  type ZoneId = string

  datatype Option<+T> = None | Some(value: T)

  /** A position; the grid only looks at `x` and `z`. */
  datatype Vec = Vec(x: real, y: real, z: real)

  const ORIGIN := Vec(0.0, 0.0, 0.0)

  /** Squared distance in the X/Z plane. */
  function DistSq(p: Vec, q: Vec): real {
    (p.x - q.x) * (p.x - q.x) + (p.z - q.z) * (p.z - q.z)
  }

  // ---------- ghost identifiers ----------

  predicate HasMark(s: Id, mark: char) {
    |s| >= 6 && s[|s| - 6] == mark && s[|s| - 5..] == "ghost"
  }

  /** Real entities never carry one of the two ghost suffixes. */
  predicate IsReal(s: Id) {
    !HasMark(s, '_') && !HasMark(s, '@')
  }

  function LocalGhost(s: Id): (g: Id)
    ensures HasMark(g, '_') && !HasMark(g, '@') && !IsReal(g)
  {
    s + "_ghost"
  }

  function RemoteGhost(s: Id): (g: Id)
    ensures HasMark(g, '@') && !HasMark(g, '_') && !IsReal(g)
  {
    s + "@ghost"
  }

  // ---------- the order of sort.Slice on identifiers ----------

  /** Lexicographic order, Go's `<=` on strings. */
  predicate Leq(a: Id, b: Id)
    decreases |a|
  {
    a == [] || (b != [] && (a[0] < b[0] || (a[0] == b[0] && Leq(a[1..], b[1..]))))
  }

  lemma {:induction false} LeqTotal(a: Id, b: Id)
    ensures Leq(a, b) || Leq(b, a)
    decreases |a|
  {
    if a != [] && b != [] { LeqTotal(a[1..], b[1..]); }
  }

  lemma {:induction false} LeqAntisymmetric(a: Id, b: Id)
    requires Leq(a, b) && Leq(b, a)
    ensures a == b
    decreases |a|
  {
    if a != [] {
      LeqAntisymmetric(a[1..], b[1..]);
      assert a == [a[0]] + a[1..] && b == [b[0]] + b[1..];
    }
  }

  lemma {:induction false} LeqTransitive(a: Id, b: Id, c: Id)
    requires Leq(a, b) && Leq(b, c)
    ensures Leq(a, c)
    decreases |a|
  {
    if a != [] && a[0] == b[0] && b[0] == c[0] { LeqTransitive(a[1..], b[1..], c[1..]); }
  }

  ghost predicate StrictlySorted(s: seq<Id>) {
    forall i, j :: 0 <= i < j < |s| ==> Leq(s[i], s[j]) && s[i] != s[j]
  }

  /** `s` lists exactly the members of `S`, in increasing order and without repetition. */
  ghost predicate SortedListing(s: seq<Id>, S: set<Id>) {
    StrictlySorted(s) && forall x :: x in s <==> x in S
  }

  /** A set has one sorted listing only, so sorting hides the order of the map that was iterated. */
  lemma {:induction false} SortedListingUnique(s: seq<Id>, t: seq<Id>, S: set<Id>)
    requires SortedListing(s, S) && SortedListing(t, S)
    ensures s == t
    decreases |s|
  {
    assert t != [] ==> t[0] in t && t[0] in s;
    if s == [] {
    } else {
      assert s[0] in t && t != [] && t[0] in s;
      var i :| 0 <= i < |t| && t[i] == s[0];
      var j :| 0 <= j < |s| && s[j] == t[0];
      if i != 0 || j != 0 { LeqAntisymmetric(s[0], t[0]); }
      assert s[0] == t[0];
      forall x ensures x in s[1..] <==> x in S - {s[0]} { SuffixMembers(s, x); }
      forall x ensures x in t[1..] <==> x in S - {s[0]} { SuffixMembers(t, x); }
      SortedListingUnique(s[1..], t[1..], S - {s[0]});
      assert s == [s[0]] + s[1..] && t == [t[0]] + t[1..];
    }
  }

  lemma SuffixMembers(s: seq<Id>, x: Id)
    requires s != [] && StrictlySorted(s)
    ensures x in s[1..] <==> x in s && x != s[0]
  {
    if x in s && x != s[0] {
      var i :| 0 <= i < |s| && s[i] == x;
      assert s[1..][i - 1] == x;
    }
  }

  // ---------- iteration orders ----------

  /** `order` visits every member of `S` exactly once: one run of Go's `range` over a map. */
  ghost predicate Visits(order: seq<string>, S: set<string>) {
    (forall x :: x in order <==> x in S) && forall i, j :: 0 <= i < j < |order| ==> order[i] != order[j]
  }

  lemma VisitsMore(order: seq<string>, S: set<string>, x: string)
    requires Visits(order, S) && x !in S
    ensures Visits(order + [x], S + {x})
  {
  }

  lemma TakeMore<T>(s: seq<T>, i: nat)
    requires i < |s|
    ensures s[..i + 1] == s[..i] + [s[i]] && s[i..][1..] == s[i + 1..] && s[i..][0] == s[i]
  {
  }
}
