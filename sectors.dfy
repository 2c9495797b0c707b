/**
 * The sector helpers of app.js: `groupBySector`, `sortSectors`, `getSectorClass`,
 * `getSectorIcon`, and the month names of `getMonthName`.
 *
 * String order is the order of UTF-16 code units; `localeCompare`'s locale collation is
 * not modelled.
 */
module Sectors {
  import opened Wrappers
  import opened Api
  import opened Text

  /** A consultant record: its `setor` field (absent, or a string) and everything else it carries. */
  datatype Consultant = Consultant(setor: Option<string>, rest: Json)

  /** The bucket `groupBySector` puts a consultant in: `c.setor || 'OUTROS'`. */
  function SectorOf(c: Consultant): string
  {
    StringOr(c.setor, "OUTROS")
  }

  /** The consultants of `list` whose sector is `s`, in input order. */
  function Bucket(list: seq<Consultant>, s: string): seq<Consultant>
  {
    if list == [] then []
    else Bucket(list[..|list| - 1], s) + (if SectorOf(list[|list| - 1]) == s then [list[|list| - 1]] else [])
  }

  /** The sectors that occur in `list`. */
  function SectorsIn(list: seq<Consultant>): set<string>
  {
    set i | 0 <= i < |list| :: SectorOf(list[i])
  }

  /**
   * `groupBySector(list)`: one bucket per sector that occurs, holding that sector's
   * consultants in input order.
   */
  method GroupBySector(list: seq<Consultant>) returns (m: map<string, seq<Consultant>>)
    ensures m.Keys == SectorsIn(list)
    ensures forall s :: s in m ==> m[s] == Bucket(list, s)
  {
    m := map[];
    var i := 0;
    while i < |list|
      invariant 0 <= i <= |list|
      invariant m.Keys == SectorsIn(list[..i])
      invariant forall s :: s in m ==> m[s] == Bucket(list[..i], s)
    {
      var c := list[i];
      var s := SectorOf(c);
      if s !in m {
        BucketOfAbsent(list[..i], s);
        m := m[s := []];
      }
      m := m[s := m[s] + [c]];
      assert list[..i + 1][..i] == list[..i];
      assert SectorsIn(list[..i + 1]) == SectorsIn(list[..i]) + {s} by {
        forall t | t in SectorsIn(list[..i + 1]) ensures t in SectorsIn(list[..i]) + {s} {
          var j :| 0 <= j < i + 1 && SectorOf(list[..i + 1][j]) == t;
          if j < i {
            assert list[..i + 1][j] == list[..i][j];
          }
        }
        forall t | t in SectorsIn(list[..i]) ensures t in SectorsIn(list[..i + 1]) {
          var j :| 0 <= j < i && SectorOf(list[..i][j]) == t;
          assert list[..i + 1][j] == list[..i][j];
        }
      }
      i := i + 1;
    }
    assert list[..|list|] == list;
  }

  /** A sector that does not occur has an empty bucket. */
  lemma {:induction false} BucketOfAbsent(list: seq<Consultant>, s: string)
    requires s !in SectorsIn(list)
    ensures Bucket(list, s) == []
  {
    if list != [] {
      var init := list[..|list| - 1];
      forall j | 0 <= j < |init| ensures SectorOf(init[j]) != s {
        assert init[j] == list[j];
      }
      BucketOfAbsent(init, s);
    }
  }

  /** A consultant is in the bucket of `s` exactly when it is in the list and its sector is `s`. */
  lemma {:induction false} BucketMembers(list: seq<Consultant>, s: string, c: Consultant)
    ensures c in Bucket(list, s) <==> c in list && SectorOf(c) == s
  {
    if list != [] {
      var init := list[..|list| - 1];
      BucketMembers(init, s, c);
      assert list == init + [list[|list| - 1]];
    }
  }

  /**
   * Every consultant lands in exactly one bucket: the one of its own sector (a missing or
   * empty `setor` gives `OUTROS`), and no other.
   */
  lemma ExactlyOneBucket(list: seq<Consultant>, c: Consultant, s: string)
    requires c in list
    ensures c in Bucket(list, SectorOf(c))
    ensures c in Bucket(list, s) ==> s == SectorOf(c)
    ensures c.setor.None? || c.setor == Some("") ==> c in Bucket(list, "OUTROS")
  {
    BucketMembers(list, SectorOf(c), c);
    BucketMembers(list, s, c);
  }

  /** Buckets keep the input order: the bucket of a concatenation is the concatenation of the buckets. */
  lemma {:induction false} BucketOfConcat(a: seq<Consultant>, b: seq<Consultant>, s: string)
    ensures Bucket(a + b, s) == Bucket(a, s) + Bucket(b, s)
    decreases |b|
  {
    if b == [] {
      assert a + b == a;
    } else {
      var b' := b[..|b| - 1];
      assert (a + b)[..|a + b| - 1] == a + b';
      BucketOfConcat(a, b', s);
    }
  }

  /** The buckets together hold every consultant once: their sizes add up to the length of the list. */
  lemma {:induction false} BucketSizes(list: seq<Consultant>, s: string)
    ensures |Bucket(list, s)| == |list| - |Rest(list, s)|
  {
    if list != [] {
      BucketSizes(list[..|list| - 1], s);
    }
  }

  /** The consultants of `list` whose sector is not `s`. */
  function Rest(list: seq<Consultant>, s: string): seq<Consultant>
  {
    if list == [] then []
    else Rest(list[..|list| - 1], s) + (if SectorOf(list[|list| - 1]) == s then [] else [list[|list| - 1]])
  }

  // ---------------------------------------------------------------------------
  // sortSectors

  /** `order.indexOf(a)`: the first position of `a` in `order`, or -1. */
  function IndexOf(order: seq<string>, a: string): (r: int)
    ensures -1 <= r < |order|
    ensures r >= 0 ==> order[r] == a && forall j :: 0 <= j < r ==> order[j] != a
    ensures r == -1 <==> a !in order
  {
    if order == [] then -1
    else if order[0] == a then 0
    else
      var r := IndexOf(order[1..], a);
      if r == -1 then -1 else r + 1
  }

  /** Code-unit string order (`a <= b`). */
  predicate LexLeq(a: string, b: string)
  {
    a == [] || (b != [] && (a[0] < b[0] || (a[0] == b[0] && LexLeq(a[1..], b[1..]))))
  }

  /**
   * The order the comparator of `sortSectors` sorts by: sectors listed in `order` come
   * first, by their position there; the others follow, alphabetically.
   */
  predicate SectorLeq(order: seq<string>, a: string, b: string)
  {
    var ia := IndexOf(order, a);
    var ib := IndexOf(order, b);
    if ia == -1 && ib == -1 then LexLeq(a, b)
    else if ia == -1 then false
    else if ib == -1 then true
    else ia <= ib
  }

  /** `s` is in the order `sortSectors` produces. */
  predicate SectorsSorted(order: seq<string>, s: seq<string>)
  {
    forall i, j :: 0 <= i < j < |s| ==> SectorLeq(order, s[i], s[j])
  }

  lemma {:induction false} LexLeqTotal(a: string, b: string)
    ensures LexLeq(a, b) || LexLeq(b, a)
  {
    if a != [] && b != [] && a[0] == b[0] {
      LexLeqTotal(a[1..], b[1..]);
    }
  }

  lemma {:induction false} LexLeqTransitive(a: string, b: string, c: string)
    requires LexLeq(a, b) && LexLeq(b, c)
    ensures LexLeq(a, c)
  {
    if a != [] && b != [] && c != [] && a[0] == b[0] && b[0] == c[0] {
      LexLeqTransitive(a[1..], b[1..], c[1..]);
    }
  }

  lemma {:induction false} LexLeqAntisymmetric(a: string, b: string)
    requires LexLeq(a, b) && LexLeq(b, a)
    ensures a == b
  {
    if a != [] && b != [] {
      LexLeqAntisymmetric(a[1..], b[1..]);
      assert a == [a[0]] + a[1..];
      assert b == [b[0]] + b[1..];
    }
  }

  /** The comparator is consistent: a total order on sector names. */
  lemma SectorLeqTotalOrder(order: seq<string>, a: string, b: string, c: string)
    ensures SectorLeq(order, a, b) || SectorLeq(order, b, a)
    ensures SectorLeq(order, a, b) && SectorLeq(order, b, a) ==> a == b
    ensures SectorLeq(order, a, b) && SectorLeq(order, b, c) ==> SectorLeq(order, a, c)
  {
    LexLeqTotal(a, b);
    if SectorLeq(order, a, b) && SectorLeq(order, b, a) && IndexOf(order, a) == -1 && IndexOf(order, b) == -1 {
      LexLeqAntisymmetric(a, b);
    }
    if SectorLeq(order, a, b) && SectorLeq(order, b, c) && IndexOf(order, a) == -1 && IndexOf(order, c) == -1 {
      LexLeqTransitive(a, b, c);
    }
  }

  /**
   * In a sorted list of distinct sectors, those listed in `order` come first, by their
   * position there, and the remaining ones follow in strictly increasing string order.
   */
  lemma SortedMeansRanked(order: seq<string>, s: seq<string>, i: int, j: int)
    requires SectorsSorted(order, s)
    requires 0 <= i < j < |s| && s[i] != s[j]
    ensures s[j] in order ==> s[i] in order && IndexOf(order, s[i]) < IndexOf(order, s[j])
    ensures s[i] !in order ==> s[j] !in order && LexLeq(s[i], s[j])
  {
    var a, b := s[i], s[j];
    assert SectorLeq(order, a, b);
    var ia, ib := IndexOf(order, a), IndexOf(order, b);
    if ia >= 0 && ib >= 0 {
      assert ia != ib by {
        assert order[ia] == a && order[ib] == b;
      }
    }
  }

  /**
   * `sortSectors(keys, order)`: sorts the array in place (insertion sort stands for the
   * stable `Array.prototype.sort`) so that it is a permutation of what it held and ordered
   * by the comparator.
   */
  method SortSectors(a: array<string>, order: seq<string>)
    modifies a
    ensures SectorsSorted(order, a[..])
    ensures multiset(a[..]) == multiset(old(a[..]))
  {
    var i := 0;
    while i < a.Length
      invariant 0 <= i <= a.Length
      invariant SectorsSorted(order, a[..i])
      invariant multiset(a[..]) == multiset(old(a[..]))
    {
      InsertStep(a, order, i);
      i := i + 1;
    }
    assert a[..a.Length] == a[..];
  }

  /** Moves `a[i]` left into the sorted prefix `a[..i]`, leaving `a[..i + 1]` sorted. */
  method InsertStep(a: array<string>, order: seq<string>, i: int)
    requires 0 <= i < a.Length
    requires SectorsSorted(order, a[..i])
    modifies a
    ensures SectorsSorted(order, a[..i + 1])
    ensures multiset(a[..]) == multiset(old(a[..]))
  {
    var j := i;
    InsertStart(order, a[..], i);
    while j > 0 && !SectorLeq(order, a[j - 1], a[j])
      invariant 0 <= j <= i
      invariant multiset(a[..]) == multiset(old(a[..]))
      invariant InsertInv(order, a[..], i, j)
    {
      ghost var s := a[..];
      a[j - 1], a[j] := a[j], a[j - 1];
      assert a[..] == s[j - 1 := s[j]][j := s[j - 1]];
      SwapPermutes(s, j);
      SwapStep(order, s, i, j);
      j := j - 1;
    }
    InsertDone(order, a[..], i, j);
  }

  /**
   * While an element moves left: the other elements of `s[..i + 1]` are in order, and the
   * moving element at `j` sorts before everything to its right.
   */
  ghost predicate InsertInv(order: seq<string>, s: seq<string>, i: int, j: int)
    requires 0 <= j <= i < |s|
  {
    (forall p, q :: 0 <= p < q <= i && p != j && q != j ==> SectorLeq(order, s[p], s[q])) &&
    (forall q :: j < q <= i ==> SectorLeq(order, s[j], s[q]))
  }

  /** Before it moves, the new element sorts before nothing yet and the others are in order. */
  lemma InsertStart(order: seq<string>, s: seq<string>, i: int)
    requires 0 <= i < |s|
    requires SectorsSorted(order, s[..i])
    ensures InsertInv(order, s, i, i)
  {
    forall p, q | 0 <= p < q < i ensures SectorLeq(order, s[p], s[q]) {
      assert s[..i][p] == s[p] && s[..i][q] == s[q];
    }
  }

  /** Swapping two neighbours permutes the sequence. */
  lemma SwapPermutes(s: seq<string>, j: int)
    requires 0 < j < |s|
    ensures multiset(s[j - 1 := s[j]][j := s[j - 1]]) == multiset(s)
  {
  }

  /** Swapping the moving element with a larger left neighbour keeps the insertion invariant. */
  lemma SwapStep(order: seq<string>, s: seq<string>, i: int, j: int)
    requires 0 < j <= i < |s|
    requires InsertInv(order, s, i, j)
    requires !SectorLeq(order, s[j - 1], s[j])
    ensures InsertInv(order, s[j - 1 := s[j]][j := s[j - 1]], i, j - 1)
  {
    SectorLeqTotalOrder(order, s[j - 1], s[j], s[j]);
  }

  /** When the moving element has stopped, the whole of `s[..i + 1]` is in order. */
  lemma InsertDone(order: seq<string>, s: seq<string>, i: int, j: int)
    requires 0 <= j <= i < |s|
    requires InsertInv(order, s, i, j)
    requires j > 0 ==> SectorLeq(order, s[j - 1], s[j])
    ensures SectorsSorted(order, s[..i + 1])
  {
    forall p, q | 0 <= p < q <= i ensures SectorLeq(order, s[p], s[q]) {
      if q == j && p < j - 1 {
        SectorLeqTotalOrder(order, s[p], s[j - 1], s[j]);
      }
    }
  }

  // ---------------------------------------------------------------------------
  // getSectorClass / getSectorIcon

  /** `(s || '').toUpperCase()`: the text both switches look at. */
  function SectorText(s: Option<string>): string
  {
    Upper(StringOr(s, ""))
  }

  /**
   * The case of the switch both functions share: VENDAS, RECEPCAO, REFILIACAO, WEB SITE or
   * WEB, TELEVENDAS, RETENÇÃO or RETENCAO, and the default.
   */
  function SectorGroup(s: Option<string>): (g: nat)
    ensures g < 7
  {
    var u := SectorText(s);
    if u == "VENDAS" then 0
    else if u == "RECEPCAO" then 1
    else if u == "REFILIACAO" then 2
    else if u == "WEB SITE" || u == "WEB" then 3
    else if u == "TELEVENDAS" then 4
    else if u == "RETENÇÃO" || u == "RETENCAO" then 5
    else 6
  }

  const SECTOR_CLASSES: seq<string> := ["sector-vendas", "sector-recepcao", "sector-refiliacao",
    "sector-web", "sector-televendas", "sector-retencao", "sector-outros"]

  const SECTOR_ICONS: seq<string> := ["fas fa-shopping-cart", "fas fa-headset", "fas fa-user-plus",
    "fas fa-globe", "fas fa-phone-alt", "fas fa-crown", "fas fa-users"]

  /** `getSectorClass(s)`: one of the seven classes; a missing or empty sector gets the default. */
  function SectorClass(s: Option<string>): (r: string)
    ensures r in SECTOR_CLASSES
    ensures SectorText(s) == "" ==> r == "sector-outros"
    ensures r == "sector-vendas" <==> SectorText(s) == "VENDAS"
  {
    SECTOR_CLASSES[SectorGroup(s)]
  }

  /** `getSectorIcon(s)`: one of the seven icons; a missing or empty sector gets the default. */
  function SectorIcon(s: Option<string>): (r: string)
    ensures r in SECTOR_ICONS
    ensures SectorText(s) == "" ==> r == "fas fa-users"
    ensures r == "fas fa-shopping-cart" <==> SectorText(s) == "VENDAS"
  {
    SECTOR_ICONS[SectorGroup(s)]
  }

  /** No two cases share a class. */
  lemma ClassesDistinct(g1: nat, g2: nat)
    requires g1 < 7 && g2 < 7 && SECTOR_CLASSES[g1] == SECTOR_CLASSES[g2]
    ensures g1 == g2
  {
    assert SECTOR_CLASSES[g1][7..9] == SECTOR_CLASSES[g2][7..9];
  }

  /** No two cases share an icon. */
  lemma IconsDistinct(g1: nat, g2: nat)
    requires g1 < 7 && g2 < 7 && SECTOR_ICONS[g1] == SECTOR_ICONS[g2]
    ensures g1 == g2
  {
    assert SECTOR_ICONS[g1][7..9] == SECTOR_ICONS[g2][7..9];
  }

  /**
   * The two switches group sector names identically: two sectors get the same class exactly
   * when they fall in the same case, and the same icon exactly then too.
   */
  lemma ClassAndIconAgree(s1: Option<string>, s2: Option<string>)
    ensures SectorClass(s1) == SectorClass(s2) <==> SectorGroup(s1) == SectorGroup(s2)
    ensures SectorIcon(s1) == SectorIcon(s2) <==> SectorGroup(s1) == SectorGroup(s2)
  {
    if SectorClass(s1) == SectorClass(s2) {
      ClassesDistinct(SectorGroup(s1), SectorGroup(s2));
    }
    if SectorIcon(s1) == SectorIcon(s2) {
      IconsDistinct(SectorGroup(s1), SectorGroup(s2));
    }
  }

  /** Both switches ignore letter case, and a missing or empty sector is the default group. */
  lemma SectorCaseInsensitive(x: string)
    ensures SectorClass(Some(x)) == SectorClass(Some(Upper(x)))
    ensures SectorIcon(Some(x)) == SectorIcon(Some(Upper(x)))
    ensures SectorClass(None) == SectorClass(Some("")) == "sector-outros"
    ensures SectorIcon(None) == SectorIcon(Some("")) == "fas fa-users"
  {
    UpperIdempotent(x);
    assert Upper("") == "";
  }

  // ---------------------------------------------------------------------------
  // getMonthName

  const MONTHS: seq<string> := ["Janeiro", "Fevereiro", "Março", "Abril", "Maio", "Junho",
    "Julho", "Agosto", "Setembro", "Outubro", "Novembro", "Dezembro"]

  /** `getMonthName(m)`: the Portuguese name of month `m`, `undefined` (`None`) outside 1..12. */
  function MonthName(m: int): (r: Option<string>)
    ensures r.Some? <==> 1 <= m <= 12
  {
    if 1 <= m <= 12 then Some(MONTHS[m - 1]) else None
  }

  /** Different months have different names. */
  lemma MonthNamesDistinct(m1: int, m2: int)
    requires MonthName(m1).Some? && MonthName(m1) == MonthName(m2)
    ensures m1 == m2
  {
  }
}
