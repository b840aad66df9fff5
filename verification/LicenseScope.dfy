/** The scope granted by the licence products active now (infra/auth/auth_connection.go:153-241). */
module LicenseScope {
  import opened Permissions

  datatype Product = Product(prod: string, scope: seq<string>, expiresAt: int, issuedAt: int)

  /** Names a scope and lies inside its validity bounds; an unset bound is 0 or less. */
  predicate Active(p: Product, now: int) {
    && p.scope != []
    && !(0 < p.expiresAt <= now)
    && !(0 < p.issuedAt && now < p.issuedAt)
  }

  /** Active until the expiry moment and from the issue moment on, where these are set. */
  lemma ActiveBounds(p: Product, now: int)
    ensures p.scope == [] ==> !Active(p, now)
    ensures p.expiresAt > 0 && now >= p.expiresAt ==> !Active(p, now)
    ensures p.issuedAt > 0 && now < p.issuedAt ==> !Active(p, now)
    ensures p.scope != [] && (p.expiresAt <= 0 || now < p.expiresAt) && (p.issuedAt <= 0 || p.issuedAt <= now) ==> Active(p, now)
  {
  }

  // ---- the names, in order of appearance

  /** Canonical names of the classes, blanks left out. */
  function Names(classes: seq<string>, canon: string -> string): seq<string> {
    if classes == [] then []
    else
      var name := canon(classes[|classes| - 1]);
      Names(classes[..|classes| - 1], canon) + if name == "" then [] else [name]
  }

  /** The names of all active products. */
  function Candidates(products: seq<Product>, now: int, canon: string -> string): seq<string> {
    if products == [] then []
    else
      var p := products[|products| - 1];
      Candidates(products[..|products| - 1], now, canon) + if Active(p, now) then Names(p.scope, canon) else []
  }

  function ActiveProducts(products: seq<Product>, now: int): seq<string> {
    if products == [] then []
    else
      var p := products[|products| - 1];
      ActiveProducts(products[..|products| - 1], now) + if Active(p, now) then [p.prod] else []
  }

  function Distinct(names: seq<string>): seq<string> {
    if names == [] then []
    else
      var d, x := Distinct(names[..|names| - 1]), names[|names| - 1];
      if x in d then d else d + [x]
  }

  predicate Matched(name: string, classes: seq<Objclass>, same: (string, string) -> bool) {
    exists k :: 0 <= k < |classes| && same(classes[k].name, name)
  }

  function Kept(names: seq<string>, classes: seq<Objclass>, same: (string, string) -> bool): seq<string> {
    if names == [] then []
    else
      var x := names[|names| - 1];
      Kept(names[..|names| - 1], classes, same) + if Matched(x, classes, same) then [x] else []
  }

  lemma {:induction false} DistinctMembers(names: seq<string>, x: string)
    ensures x in Distinct(names) <==> x in names
  {
    if names != [] {
      DistinctMembers(names[..|names| - 1], x);
      assert names == names[..|names| - 1] + [names[|names| - 1]];
    }
  }

  lemma {:induction false} KeptMembers(names: seq<string>, classes: seq<Objclass>, same: (string, string) -> bool, x: string)
    ensures x in Kept(names, classes, same) <==> x in names && Matched(x, classes, same)
  {
    if names != [] {
      KeptMembers(names[..|names| - 1], classes, same, x);
      assert names == names[..|names| - 1] + [names[|names| - 1]];
    }
  }

  /** Some class has this canonical name. */
  predicate HasName(classes: seq<string>, canon: string -> string, x: string) {
    exists j :: 0 <= j < |classes| && canon(classes[j]) == x
  }

  /** Some class of an active product has this canonical name. */
  predicate Offered(products: seq<Product>, now: int, canon: string -> string, x: string) {
    exists k :: 0 <= k < |products| && Active(products[k], now) && HasName(products[k].scope, canon, x)
  }

  lemma {:induction false} NamesMembers(classes: seq<string>, canon: string -> string, x: string)
    ensures x in Names(classes, canon) <==> x != "" && HasName(classes, canon, x)
  {
    if classes != [] {
      NamesMembers(classes[..|classes| - 1], canon, x);
      assert forall j :: 0 <= j < |classes| - 1 ==> classes[..|classes| - 1][j] == classes[j];
    }
  }

  lemma {:induction false} CandidatesMembers(products: seq<Product>, now: int, canon: string -> string, x: string)
    ensures x in Candidates(products, now, canon) <==> x != "" && Offered(products, now, canon, x)
  {
    if products != [] {
      var init, p := products[..|products| - 1], products[|products| - 1];
      CandidatesMembers(init, now, canon, x);
      NamesMembers(p.scope, canon, x);
      assert forall k :: 0 <= k < |init| ==> init[k] == products[k];
    }
  }

  // ---- order

  /** Where x occurs first. */
  function First(names: seq<string>, x: string): (k: nat)
    requires x in names
    ensures k < |names| && names[k] == x && x !in names[..k]
  {
    if x in names[..|names| - 1] then
      var k := First(names[..|names| - 1], x);
      assert names[..|names| - 1][..k] == names[..k];
      k
    else |names| - 1
  }

  /** s lists members of `names` by first occurrence, so none twice. */
  ghost predicate InOrderOf(s: seq<string>, names: seq<string>) {
    && (forall k :: 0 <= k < |s| ==> s[k] in names)
    && forall j, k :: 0 <= j < k < |s| ==> First(names, s[j]) < First(names, s[k])
  }

  lemma {:induction false} DistinctInOrder(names: seq<string>)
    ensures InOrderOf(Distinct(names), names)
  {
    if names != [] {
      var init, x := names[..|names| - 1], names[|names| - 1];
      DistinctInOrder(init);
      DistinctMembers(init, x);
      assert forall y :: y in init ==> y in names && First(names, y) == First(init, y) < |init|;
    }
  }

  /** Dropping names keeps the order of the rest. */
  lemma {:induction false} KeptInOrder(s: seq<string>, names: seq<string>, classes: seq<Objclass>, same: (string, string) -> bool)
    requires InOrderOf(s, names)
    ensures InOrderOf(Kept(s, classes, same), names)
  {
    if s != [] {
      var init, x := s[..|s| - 1], s[|s| - 1];
      KeptInOrder(init, names, classes, same);
      var kept := Kept(init, classes, same);
      forall k | 0 <= k < |kept| ensures First(names, kept[k]) < First(names, x) {
        KeptMembers(init, classes, same, kept[k]);
      }
    }
  }

  // ---- the result

  function Licences(products: seq<Product>, now: int, canon: string -> string): seq<string> {
    if Candidates(products, now, canon) == [] then [] else ActiveProducts(products, now)
  }

  function ActiveScope(products: seq<Product>, classes: seq<Objclass>, now: int, canon: string -> string,
                       same: (string, string) -> bool): seq<string> {
    Kept(Distinct(Candidates(products, now, canon)), classes, same)
  }

  /** The scope holds exactly the non-blank canonical names offered by active products that match a class of the user,
      each once, in order of first appearance. */
  lemma ScopeMeaning(products: seq<Product>, classes: seq<Objclass>, now: int, canon: string -> string,
                     same: (string, string) -> bool)
    ensures var r := ActiveScope(products, classes, now, canon, same);
            && (forall x :: x in r <==> x != "" && Offered(products, now, canon, x) && Matched(x, classes, same))
            && InOrderOf(r, Candidates(products, now, canon))
  {
    var c := Candidates(products, now, canon);
    forall x: string
      ensures x in ActiveScope(products, classes, now, canon, same)
              <==> x != "" && Offered(products, now, canon, x) && Matched(x, classes, same)
    {
      KeptMembers(Distinct(c), classes, same, x);
      DistinctMembers(c, x);
      CandidatesMembers(products, now, canon, x);
    }
    DistinctInOrder(c);
    KeptInOrder(Distinct(c), c, classes, same);
  }

  /** The same, name by name, in terms of the products and classes alone. */
  lemma NameIsGranted(products: seq<Product>, classes: seq<Objclass>, now: int, canon: string -> string,
                      same: (string, string) -> bool, x: string)
    ensures x in ActiveScope(products, classes, now, canon, same) <==>
              && x != ""
              && (exists p: Product, name: string ::
                    && p in products && name in p.scope && canon(name) == x
                    && (p.expiresAt <= 0 || now < p.expiresAt) && (p.issuedAt <= 0 || p.issuedAt <= now))
              && exists u: Objclass :: u in classes && same(u.name, x)
  {
    ScopeMeaning(products, classes, now, canon, same);
    if Offered(products, now, canon, x) {
      var k :| 0 <= k < |products| && Active(products[k], now) && HasName(products[k].scope, canon, x);
      var j :| 0 <= j < |products[k].scope| && canon(products[k].scope[j]) == x;
      assert products[k] in products && products[k].scope[j] in products[k].scope;
    }
    if p: Product, name: string :|
      && p in products && name in p.scope && canon(name) == x
      && (p.expiresAt <= 0 || now < p.expiresAt) && (p.issuedAt <= 0 || p.issuedAt <= now)
    {
      var k :| 0 <= k < |products| && products[k] == p;
      var j :| 0 <= j < |p.scope| && p.scope[j] == name;
      assert Active(products[k], now) && HasName(products[k].scope, canon, x);
    }
    if Matched(x, classes, same) {
      var k :| 0 <= k < |classes| && same(classes[k].name, x);
      assert classes[k] in classes;
    }
    if u: Objclass :| u in classes && same(u.name, x) {
      var k :| 0 <= k < |classes| && classes[k] == u;
      assert Matched(x, classes, same);
    }
  }

  lemma {:induction false} ActiveProductsMembers(products: seq<Product>, now: int, x: string)
    ensures x in ActiveProducts(products, now)
            <==> exists k :: 0 <= k < |products| && Active(products[k], now) && products[k].prod == x
  {
    if products != [] {
      var init := products[..|products| - 1];
      ActiveProductsMembers(init, now, x);
      assert forall k :: 0 <= k < |init| ==> init[k] == products[k];
    }
  }

  /** A licence counts iff its product is active and some active product offers a name that is not blank:
      an active product whose own classes are all blank counts only in the company of another. */
  lemma LicenceCounts(products: seq<Product>, now: int, canon: string -> string, x: string)
    ensures x in Licences(products, now, canon) <==>
              && (exists k :: 0 <= k < |products| && Active(products[k], now) && products[k].prod == x)
              && exists name: string :: name != "" && Offered(products, now, canon, name)
  {
    ActiveProductsMembers(products, now, x);
    var c := Candidates(products, now, canon);
    if c != [] {
      CandidatesMembers(products, now, canon, c[0]);
    } else {
      forall name: string ensures name == "" || !Offered(products, now, canon, name) {
        CandidatesMembers(products, now, canon, name);
      }
    }
  }

  // ---- the computation

  /** The scope under construction, which the source's closures share. */
  class ScopeList {
    var scope: seq<string>
    /** Every name offered so far, repetitions included. */
    ghost var offered: seq<string>

    ghost predicate Valid()
      reads this
    {
      scope == Distinct(offered)
    }

    constructor ()
      ensures Valid() && offered == []
    {
      scope, offered := [], [];
    }

    method HasScope(name: string) returns (found: bool)
      ensures found <==> if scope == [] then name == "" else name == "" || name in scope
    {
      if |scope| == 0 {
        return name == "";
      }
      if |name| == 0 {
        return true;
      }
      var e, n := 0, |scope|;
      while e < n && scope[e] != name
        invariant 0 <= e <= n && name !in scope[..e]
      {
        e := e + 1;
      }
      found := e < n;
    }

    method AddScope(setof: seq<string>, canon: string -> string)
      requires Valid()
      modifies this
      ensures Valid() && offered == old(offered) + Names(setof, canon)
    {
      var k := 0;
      while k < |setof|
        invariant 0 <= k <= |setof|
        invariant Valid() && offered == old(offered) + Names(setof[..k], canon)
      {
        assert setof[..k + 1][..|setof[..k + 1]| - 1] == setof[..k];
        var name := canon(setof[k]);
        if |name| != 0 {
          var found := HasScope(name);
          if !found {
            scope := scope + [name];
          }
          offered := offered + [name];
          assert offered[..|offered| - 1] == old(offered) + Names(setof[..k], canon);
        }
        k := k + 1;
      }
      assert setof[..k] == setof;
    }

    /** Deletes in place every name without a class: the index steps back after each deletion. */
    method KeepMatched(classes: seq<Objclass>, same: (string, string) -> bool)
      modifies this`scope
      ensures scope == Kept(old(scope), classes, same)
    {
      var e, n := 0, |classes|;
      var i := 0;
      ghost var done := 0;
      assert old(scope)[0..] == old(scope);
      while i < |scope|
        invariant 0 <= i <= |scope| && 0 <= done <= |old(scope)|
        invariant Kept(old(scope)[..done], classes, same) == scope[..i]
        invariant scope[i..] == old(scope)[done..]
        decreases |scope| - i
      {
        var objclass := scope[i];
        assert objclass == scope[i..][0] == old(scope)[done];
        assert old(scope)[..done + 1][..|old(scope)[..done + 1]| - 1] == old(scope)[..done];
        assert scope[i + 1..] == scope[i..][1..] == old(scope)[done + 1..];
        assert scope[..i + 1] == scope[..i] + [objclass];
        e := 0;
        while e < n && !same(classes[e].name, objclass)
          invariant 0 <= e <= n && forall k :: 0 <= k < e ==> !same(classes[k].name, objclass)
        {
          e := e + 1;
        }
        if e == n {
          scope := scope[..i] + scope[i + 1..];
          i := i - 1;
        }
        i := i + 1;
        done := done + 1;
      }
      assert scope[..i] == scope && old(scope)[..done] == old(scope);
    }
  }

  method LicenseActiveScope(products: seq<Product>, classes: seq<Objclass>, now: int, canon: string -> string,
                            same: (string, string) -> bool)
    returns (licences: seq<string>, active: seq<string>)
    ensures licences == Licences(products, now, canon)
    ensures active == ActiveScope(products, classes, now, canon, same)
  {
    var list := new ScopeList();
    licences := [];
    var k := 0;
    while k < |products|
      invariant 0 <= k <= |products| && list.Valid()
      invariant list.offered == Candidates(products[..k], now, canon)
      invariant licences == ActiveProducts(products[..k], now)
    {
      var prod := products[k];
      assert products[..k + 1][..|products[..k + 1]| - 1] == products[..k];
      if |prod.scope| != 0 {
        if 0 < prod.expiresAt && prod.expiresAt <= now {
        } else if 0 < prod.issuedAt && now < prod.issuedAt {
        } else {
          list.AddScope(prod.scope, canon);
          licences := licences + [prod.prod];
        }
      }
      k := k + 1;
    }
    assert products[..k] == products;
    if |list.scope| == 0 {
      NothingOffered(list.offered);
      return [], [];
    }
    list.KeepMatched(classes, same);
    active := list.scope;
  }

  lemma NothingOffered(names: seq<string>)
    requires Distinct(names) == []
    ensures names == []
  {
    if names != [] {
      DistinctMembers(names, names[0]);
    }
  }
}
