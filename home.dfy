/**
 * The catalogue page's derived lists: the products matching the search box
 * and the selected category, and the distinct categories offered.
 */
module Home {
  import opened Common
  import opened Catalog

  const NullDescription := "TypeError: Cannot read properties of null (reading 'toLowerCase')"

  /**
   * The search test as written: the name is tested first, and only when it
   * does not match is `descripcion.toLowerCase()` called, which throws on null.
   */
  function MatchesSearchAsWritten(p: Producto, term: string): (r: Result<bool, string>)
    ensures r.Err? <==> !Includes(ToLower(p.nombre), ToLower(term)) && p.descripcion.None?
    ensures r.Err? ==> r.error == NullDescription
    ensures r == Ok(true) <==> Includes(ToLower(p.nombre), ToLower(term))
                               || (p.descripcion.Some? && Includes(ToLower(p.descripcion.value), ToLower(term)))
  {
    if Includes(ToLower(p.nombre), ToLower(term)) then Ok(true)
    else if p.descripcion.None? then Err(NullDescription)
    else Ok(Includes(ToLower(p.descripcion.value), ToLower(term)))
  }

  /** The intended search test: a null description matches no term. */
  predicate MatchesSearch(p: Producto, term: string) {
    Includes(ToLower(p.nombre), ToLower(term))
    || (p.descripcion.Some? && Includes(ToLower(p.descripcion.value), ToLower(term)))
  }

  predicate MatchesCategory(p: Producto, selected: string) {
    selected == "all" || p.categoria == Some(selected)
  }

  predicate Keep(p: Producto, term: string, selected: string) {
    MatchesSearch(p, term) && MatchesCategory(p, selected)
  }

  /** `productosFiltrados` as written: the first product whose search test throws aborts the filter. */
  function FilterAsWritten(ps: seq<Producto>, term: string, selected: string): Result<seq<Producto>, string> {
    if ps == [] then Ok([])
    else match MatchesSearchAsWritten(ps[0], term)
      case Err(e) => Err(e)
      case Ok(m) =>
        match FilterAsWritten(ps[1..], term, selected)
        case Err(e) => Err(e)
        case Ok(rest) => Ok(if m && MatchesCategory(ps[0], selected) then [ps[0]] + rest else rest)
  }

  /** `productosFiltrados` with the intended search test. */
  function Filter(ps: seq<Producto>, term: string, selected: string): seq<Producto> {
    if ps == [] then []
    else (if Keep(ps[0], term, selected) then [ps[0]] else []) + Filter(ps[1..], term, selected)
  }

  /**
   * The written filter throws exactly when some product has a null description
   * and a name the term does not match, whatever the category; otherwise it is
   * the intended filter.
   */
  lemma {:induction false} FilterAsWrittenBehaviour(ps: seq<Producto>, term: string, selected: string)
    ensures FilterAsWritten(ps, term, selected).Err?
        <==> exists i :: 0 <= i < |ps| && MatchesSearchAsWritten(ps[i], term).Err?
    ensures FilterAsWritten(ps, term, selected).Ok? ==> FilterAsWritten(ps, term, selected).value == Filter(ps, term, selected)
  {
    if ps != [] {
      FilterAsWrittenBehaviour(ps[1..], term, selected);
      if exists i :: 1 <= i < |ps| && MatchesSearchAsWritten(ps[i], term).Err? {
        var i :| 1 <= i < |ps| && MatchesSearchAsWritten(ps[i], term).Err?;
        assert MatchesSearchAsWritten(ps[1..][i - 1], term).Err?;
      }
      if exists i :: 0 <= i < |ps| - 1 && MatchesSearchAsWritten(ps[1..][i], term).Err? {
        var i :| 0 <= i < |ps| - 1 && MatchesSearchAsWritten(ps[1..][i], term).Err?;
        assert MatchesSearchAsWritten(ps[i + 1], term).Err?;
      }
    }
  }

  /** A text shorter than the term cannot contain it. */
  lemma {:induction false} ShorterNotIncluded(hay: string, needle: string)
    requires |hay| < |needle|
    ensures !Includes(hay, needle)
    decreases |hay|
  {
    if |hay| > 0 {
      ShorterNotIncluded(hay[1..], needle);
    }
  }

  /** A product stored without description, searched for by a term not in its name, crashes the page. */
  lemma NullDescriptionCrashesSearch()
    ensures FilterAsWritten([Producto(1, "Pizza", None, 1200, Some("Pizza"), None, true)], "sushi", "all")
         == Err(NullDescription)
  {
    var p := Producto(1, "Pizza", None, 1200, Some("Pizza"), None, true);
    assert ToLower("Pizza") == "pizza";
    assert ToLower("sushi") == "sushi";
    ShorterNotIncluded("izza", "sushi");
    assert "pizza"[..5] == "pizza" && "pizza"[0] != "sushi"[0];
    assert "pizza"[1..] == "izza";
    assert MatchesSearchAsWritten(p, "sushi") == Err(NullDescription);
  }

  /** `xs` occurs in `ys` in order, possibly with gaps. */
  predicate IsSubsequence<T(==)>(xs: seq<T>, ys: seq<T>)
    decreases |ys|
  {
    if xs == [] then true
    else if ys == [] then false
    else if xs[0] == ys[0] then IsSubsequence(xs[1..], ys[1..])
    else IsSubsequence(xs, ys[1..])
  }

  /** The filtered list keeps the catalogue's order. */
  lemma {:induction false} FilterIsSubsequence(ps: seq<Producto>, term: string, selected: string)
    ensures IsSubsequence(Filter(ps, term, selected), ps)
    decreases |ps|
  {
    if ps != [] {
      FilterIsSubsequence(ps[1..], term, selected);
      var rest := Filter(ps[1..], term, selected);
      if Keep(ps[0], term, selected) {
        assert Filter(ps, term, selected) == [ps[0]] + rest;
        assert ([ps[0]] + rest)[1..] == rest;
      } else {
        assert Filter(ps, term, selected) == rest;
        SkipHead(rest, ps);
      }
    }
  }

  /** A subsequence of the tail is a subsequence of the whole. */
  lemma {:induction false} SkipHead<T>(xs: seq<T>, ys: seq<T>)
    requires ys != [] && IsSubsequence(xs, ys[1..])
    ensures IsSubsequence(xs, ys)
    decreases |xs| + |ys|
  {
    if xs != [] && xs[0] == ys[0] {
      SubsequenceTail(xs, ys[1..]);
    }
  }

  /** Dropping the head of a subsequence keeps it a subsequence. */
  lemma {:induction false} SubsequenceTail<T>(xs: seq<T>, ys: seq<T>)
    requires xs != [] && IsSubsequence(xs, ys)
    ensures IsSubsequence(xs[1..], ys)
    decreases |xs| + |ys|
  {
    assert ys != [];
    if xs[0] == ys[0] {
      SkipHead(xs[1..], ys);
    } else {
      SubsequenceTail(xs, ys[1..]);
      SkipHead(xs[1..], ys);
    }
  }

  /** A product is listed exactly when it is in the catalogue and passes both tests. */
  lemma {:induction false} FilterMembership(ps: seq<Producto>, term: string, selected: string, x: Producto)
    ensures x in Filter(ps, term, selected) <==> x in ps && Keep(x, term, selected)
    decreases |ps|
  {
    if ps != [] {
      FilterMembership(ps[1..], term, selected, x);
      assert ps == [ps[0]] + ps[1..];
    }
  }

  /** An empty search with the category `all` lists the whole catalogue. */
  lemma {:induction false} EmptySearchListsAll(ps: seq<Producto>)
    ensures Filter(ps, "", "all") == ps
    decreases |ps|
  {
    if ps != [] {
      IncludesEmpty(ToLower(ps[0].nombre));
      assert ToLower("") == "";
      EmptySearchListsAll(ps[1..]);
      assert [ps[0]] + ps[1..] == ps;
    }
  }

  // ------------------------------------------------------------ categories

  /** `productos.map(p => p.categoria)`. */
  function CategoriaList(ps: seq<Producto>): (r: seq<Option<string>>)
    ensures |r| == |ps| && forall i :: 0 <= i < |ps| ==> r[i] == ps[i].categoria
  {
    seq(|ps|, i requires 0 <= i < |ps| => ps[i].categoria)
  }

  /** `[...new Set(xs)]`: each value once, in the order it was first inserted. */
  function Distinct(xs: seq<Option<string>>): seq<Option<string>>
    decreases |xs|
  {
    if xs == [] then []
    else
      var d := Distinct(xs[..|xs| - 1]);
      if xs[|xs| - 1] in d then d else d + [xs[|xs| - 1]]
  }

  function Categorias(ps: seq<Producto>): seq<Option<string>> {
    Distinct(CategoriaList(ps))
  }

  /** The position of the first occurrence of `x`. */
  function FirstIndex(xs: seq<Option<string>>, x: Option<string>): (i: nat)
    requires x in xs
    ensures i < |xs| && xs[i] == x && forall j :: 0 <= j < i ==> xs[j] != x
  {
    if xs[0] == x then 0 else 1 + FirstIndex(xs[1..], x)
  }

  lemma {:induction false} FirstIndexAppend(xs: seq<Option<string>>, y: Option<string>, x: Option<string>)
    requires x in xs + [y]
    ensures x in xs ==> FirstIndex(xs + [y], x) == FirstIndex(xs, x)
    ensures x !in xs ==> FirstIndex(xs + [y], x) == |xs|
  {
    var i := FirstIndex(xs + [y], x);
    if x in xs {
      var k := FirstIndex(xs, x);
      assert (xs + [y])[k] == x;
    } else {
      assert forall j :: 0 <= j < |xs| ==> (xs + [y])[j] != x;
    }
  }

  /**
   * The category list holds each category of the catalogue exactly once, in
   * the order of first appearance.
   */
  lemma {:induction false} DistinctProperties(xs: seq<Option<string>>)
    ensures forall x :: x in Distinct(xs) <==> x in xs
    ensures forall i, j :: 0 <= i < j < |Distinct(xs)| ==> Distinct(xs)[i] != Distinct(xs)[j]
    ensures forall i, j :: 0 <= i < j < |Distinct(xs)|
              ==> FirstIndex(xs, Distinct(xs)[i]) < FirstIndex(xs, Distinct(xs)[j])
    decreases |xs|
  {
    if xs != [] {
      var init := xs[..|xs| - 1];
      var y := xs[|xs| - 1];
      assert xs == init + [y];
      DistinctProperties(init);
      var d := Distinct(init);
      forall x | x in init
        ensures FirstIndex(xs, x) == FirstIndex(init, x)
      {
        FirstIndexAppend(init, y, x);
      }
      if y !in d {
        FirstIndexAppend(init, y, y);
        var e := d + [y];
        forall i, j | 0 <= i < j < |e|
          ensures FirstIndex(xs, e[i]) < FirstIndex(xs, e[j])
        {
          assert e[i] == d[i] && e[i] in init;
          if j < |d| {
            assert e[j] == d[j] && e[j] in init;
          }
        }
      }
    }
  }

  /** Every product shown has its category among those offered. */
  lemma FilteredCategoriesOffered(ps: seq<Producto>, term: string, selected: string)
    ensures forall p :: p in Filter(ps, term, selected) ==> p.categoria in Categorias(ps)
  {
    DistinctProperties(CategoriaList(ps));
    forall p | p in Filter(ps, term, selected)
      ensures p.categoria in Categorias(ps)
    {
      FilterMembership(ps, term, selected, p);
      var i :| 0 <= i < |ps| && ps[i] == p;
      assert CategoriaList(ps)[i] == p.categoria;
    }
  }
}
