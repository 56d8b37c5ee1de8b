/**
 * Path parameters in generated requests: each `{name}` in a path is replaced by its value, one parameter
 * after the other, in whatever order the map hands them out.
 */
module PostmanPaths {
  import opened MapOrder

  /** `replace` on strings: every occurrence, leftmost first, without overlaps. */
  function Replace(s: string, pattern: string, to: string): string
    requires pattern != ""
    decreases |s|
  {
    if pattern <= s then to + Replace(s[|pattern|..], pattern, to)
    else if s == "" then ""
    else [s[0]] + Replace(s[1..], pattern, to)
  }

  function Placeholder(name: string): (r: string)
    ensures |r| == |name| + 2
  {
    "{" + name + "}"
  }

  /** The parameters replaced one after the other, in the order given. */
  function ReplaceAll(path: string, params: map<string, string>, order: seq<string>): string
    requires forall p | p in order :: p in params
    decreases |order|
  {
    if order == [] then path
    else ReplaceAll(Replace(path, Placeholder(order[0]), params[order[0]]), params, order[1..])
  }

  // ---------------------------------------------------------------- the loop

  lemma {:induction false} ReplaceAllThenOne(
    path: string, params: map<string, string>, order: seq<string>, p: string)
    requires p in params && forall q | q in order :: q in params
    ensures
      ReplaceAll(path, params, order + [p]) ==
      Replace(ReplaceAll(path, params, order), Placeholder(p), params[p])
    decreases |order|
  {
    if order == [] {
      assert [] + [p] == [p];
    } else {
      assert (order + [p])[1..] == order[1..] + [p];
      ReplaceAllThenOne(Replace(path, Placeholder(order[0]), params[order[0]]), params, order[1..], p);
    }
  }

  method SubstituteParams(path: string, params: map<string, string>) returns (r: string)
    ensures exists order :: IsOrder(order, params.Keys) && r == ReplaceAll(path, params, order)
  {
    r := path;
    ghost var order := [];
    var rest := params.Keys;
    while rest != {}
      invariant rest <= params.Keys && IsOrder(order, params.Keys - rest)
      invariant r == ReplaceAll(path, params, order)
    {
      HasName(rest);
      var p :| p in rest;
      ReplaceAllThenOne(path, params, order, p);
      r := Replace(r, Placeholder(p), params[p]);
      order := order + [p];
      rest := rest - {p};
    }
    assert params.Keys - rest == params.Keys;
  }

  // ---------------------------------------------------------------- paths in pieces

  predicate BraceFree(s: string) {
    '{' !in s && '}' !in s
  }

  /** A piece of a path: plain text, a placeholder `{name}`, or a Postman variable `{{name}}`. */
  datatype Piece = Text(text: string) | Hole(name: string) | Var(name: string)
  {
    predicate Ok() {
      if this.Text? then BraceFree(text) else BraceFree(name)
    }

    function Show(): string {
      match this
      case Text(t) => t
      case Hole(n) => Placeholder(n)
      case Var(n) => "{" + Placeholder(n) + "}"
    }
  }

  function Render(pieces: seq<Piece>): string {
    if pieces == [] then "" else pieces[0].Show() + Render(pieces[1..])
  }

  /** A path of brace-free text and placeholders. */
  predicate IsTemplate(pieces: seq<Piece>) {
    forall i | 0 <= i < |pieces| :: pieces[i].Ok() && !pieces[i].Var?
  }

  /** Values that are brace-free or a single variable. */
  predicate AreValues(values: map<string, Piece>) {
    forall p | p in values :: BraceFree(p) && values[p].Ok() && !values[p].Hole?
  }

  function Shown(values: map<string, Piece>): map<string, string> {
    map p | p in values :: values[p].Show()
  }

  /** What one replacement makes of a piece. */
  function Image(piece: Piece, p: string, to: string): string {
    match piece
    case Text(t) => t
    case Hole(n) => if n == p then to else piece.Show()
    case Var(n) => if n == p then "{" + to + "}" else piece.Show()
  }

  function Images(pieces: seq<Piece>, p: string, to: string): string {
    if pieces == [] then "" else Image(pieces[0], p, to) + Images(pieces[1..], p, to)
  }

  // ---------------------------------------------------------------- one replacement

  lemma {:induction false} ReplaceSkips(t: string, rest: string, p: string, to: string)
    requires '{' !in t
    ensures Replace(t + rest, Placeholder(p), to) == t + Replace(rest, Placeholder(p), to)
    decreases |t|
  {
    if t == "" {
      assert t + rest == rest;
    } else {
      var s := t + rest;
      assert s[0] == t[0] && s[1..] == t[1..] + rest;
      assert Placeholder(p)[0] == '{';
      ReplaceSkips(t[1..], rest, p, to);
      assert t == [t[0]] + t[1..];
    }
  }

  lemma OtherHole(q: string, rest: string, p: string)
    requires BraceFree(p) && BraceFree(q) && p != q
    ensures !(Placeholder(p) <= Placeholder(q) + rest)
  {
    var s := Placeholder(q) + rest;
    if |p| < |q| {
      assert s[|p| + 1] == q[|p|] && Placeholder(p)[|p| + 1] == '}';
    } else if |q| < |p| {
      assert s[|q| + 1] == '}' && Placeholder(p)[|q| + 1] == p[|q|];
    } else {
      assert Placeholder(p)[1..|p| + 1] == p && s[1..|p| + 1] == q;
    }
  }

  lemma ReplaceHole(q: string, rest: string, p: string, to: string)
    requires BraceFree(p) && BraceFree(q)
    ensures
      Replace(Placeholder(q) + rest, Placeholder(p), to) ==
      (if p == q then to else Placeholder(q)) + Replace(rest, Placeholder(p), to)
  {
    var s := Placeholder(q) + rest;
    if p == q {
      assert s[|Placeholder(p)|..] == rest;
    } else {
      OtherHole(q, rest, p);
      assert s[0] == '{' && s[1..] == (q + "}") + rest;
      ReplaceSkips(q + "}", rest, p, to);
      assert Placeholder(q) == "{" + (q + "}");
    }
  }

  lemma ReplaceVar(q: string, rest: string, p: string, to: string)
    requires BraceFree(p) && BraceFree(q)
    ensures
      Replace(Var(q).Show() + rest, Placeholder(p), to) ==
      Image(Var(q), p, to) + Replace(rest, Placeholder(p), to)
  {
    hide Placeholder, Replace;
    var hole := Placeholder(q);
    VarIsHole(q, rest, p, to);
    ReplaceHole(q, "}" + rest, p, to);
    ReplaceSkips("}", rest, p, to);
    var after := Replace(rest, Placeholder(p), to);
    assert "{" + ((if p == q then to else hole) + ("}" + after)) == Image(Var(q), p, to) + after;
  }

  lemma VarIsHole(q: string, rest: string, p: string, to: string)
    requires BraceFree(p)
    ensures
      Replace(Var(q).Show() + rest, Placeholder(p), to) ==
      "{" + Replace(Placeholder(q) + ("}" + rest), Placeholder(p), to)
  {
    var s := Var(q).Show() + rest;
    var t := Placeholder(q) + ("}" + rest);
    assert s == "{" + t && t[0] == '{' && Placeholder(p)[1] != '{';
    assert !(Placeholder(p) <= s);
  }

  lemma ReplacePiece(piece: Piece, rest: string, p: string, to: string)
    requires BraceFree(p) && piece.Ok()
    ensures Replace(piece.Show() + rest, Placeholder(p), to) == Image(piece, p, to) + Replace(rest, Placeholder(p), to)
  {
    match piece
    case Text(t) => ReplaceSkips(t, rest, p, to);
    case Hole(q) => ReplaceHole(q, rest, p, to);
    case Var(q) => ReplaceVar(q, rest, p, to);
  }

  /** One replacement changes the pieces that show `{p}`, and nothing across their borders or the last one's. */
  lemma {:induction false} ReplaceByPieces(pieces: seq<Piece>, rest: string, p: string, to: string)
    requires BraceFree(p) && forall i | 0 <= i < |pieces| :: pieces[i].Ok()
    ensures
      Replace(Render(pieces) + rest, Placeholder(p), to) == Images(pieces, p, to) + Replace(rest, Placeholder(p), to)
  {
    hide Replace, Image;
    if pieces == [] {
      assert Render(pieces) + rest == rest;
    } else {
      var more := Render(pieces[1..]) + rest;
      assert Render(pieces) + rest == pieces[0].Show() + more;
      ReplacePiece(pieces[0], more, p, to);
      ReplaceByPieces(pieces[1..], rest, p, to);
    }
  }

  // ---------------------------------------------------------------- simultaneous substitution

  function SubstPiece(piece: Piece, values: map<string, Piece>, names: set<string>): Piece {
    if piece.Hole? && piece.name in names && piece.name in values then values[piece.name] else piece
  }

  /** All placeholders in `names` replaced at once; what their values show is left alone. */
  function Subst(pieces: seq<Piece>, values: map<string, Piece>, names: set<string>): (r: seq<Piece>)
    ensures |r| == |pieces| && forall i | 0 <= i < |r| :: r[i] == SubstPiece(pieces[i], values, names)
  {
    if pieces == [] then [] else [SubstPiece(pieces[0], values, names)] + Subst(pieces[1..], values, names)
  }

  /** No placeholder of the path has the variable of another parameter as its value. */
  predicate Independent(pieces: seq<Piece>, values: map<string, Piece>) {
    forall i | 0 <= i < |pieces| && pieces[i].Hole? && pieces[i].name in values ::
      var v := values[pieces[i].name];
      v.Var? && v.name in values ==> v.name == pieces[i].name
  }

  lemma {:induction false} ImagesAreSubst(pieces: seq<Piece>, now: seq<Piece>, values: map<string, Piece>,
                                          names: set<string>, p: string)
    requires |now| == |pieces| && p in values
    requires forall i | 0 <= i < |pieces| ::
      now[i] == SubstPiece(pieces[i], values, names) && Image(now[i], p, values[p].Show()) ==
      SubstPiece(pieces[i], values, names + {p}).Show()
    ensures Images(now, p, values[p].Show()) == Render(Subst(pieces, values, names + {p}))
  {
    if pieces != [] {
      ImagesAreSubst(pieces[1..], now[1..], values, names, p);
    }
  }

  /** One more parameter replaced, after those in `names`. */
  lemma OneMore(pieces: seq<Piece>, rest: string, values: map<string, Piece>, names: set<string>, p: string)
    requires IsTemplate(pieces) && AreValues(values) && Independent(pieces, values)
    requires p in values && p !in names
    ensures
      Replace(Render(Subst(pieces, values, names)) + rest, Placeholder(p), values[p].Show()) ==
      Render(Subst(pieces, values, names + {p})) + Replace(rest, Placeholder(p), values[p].Show())
  {
    hide Replace, Placeholder, Render, Subst;
    var now := Subst(pieces, values, names);
    ReplaceByPieces(now, rest, p, values[p].Show());
    ImagesAreSubst(pieces, now, values, names, p);
  }

  /** Parameters replaced in some order; what follows the pieces is treated by itself. */
  lemma {:induction false} InAnyOrder(
    pieces: seq<Piece>, rest: string, values: map<string, Piece>, names: set<string>, order: seq<string>, keys: set<string>)
    requires IsTemplate(pieces) && AreValues(values) && Independent(pieces, values)
    requires IsOrder(order, keys) && names !! keys && keys <= values.Keys
    ensures
      ReplaceAll(Render(Subst(pieces, values, names)) + rest, Shown(values), order) ==
      Render(Subst(pieces, values, names + keys)) + ReplaceAll(rest, Shown(values), order)
    decreases |order|
  {
    hide IsTemplate, AreValues, Independent, Replace, Subst, Render, IsOrder;
    FirstOfOrder(order, keys);
    if order == [] {
      assert names + keys == names;
    } else {
      var p := order[0];
      OneMore(pieces, rest, values, names, p);
      assert names + keys == names + {p} + (keys - {p});
      var rest' := Replace(rest, Placeholder(p), values[p].Show());
      InAnyOrder(pieces, rest', values, names + {p}, order[1..], keys - {p});
    }
  }

  lemma InAnyOrderFromStart(
    pieces: seq<Piece>, rest: string, values: map<string, Piece>, order: seq<string>)
    requires IsTemplate(pieces) && AreValues(values) && Independent(pieces, values)
    requires IsOrder(order, values.Keys)
    ensures
      ReplaceAll(Render(pieces) + rest, Shown(values), order) ==
      Render(Subst(pieces, values, values.Keys)) + ReplaceAll(rest, Shown(values), order)
  {
    hide IsTemplate, AreValues, Independent, IsOrder;
    assert Subst(pieces, values, {}) == pieces;
    assert {} + values.Keys == values.Keys;
    InAnyOrder(pieces, rest, values, {}, order, values.Keys);
  }

  lemma {:induction false} NothingToReplace(params: map<string, string>, order: seq<string>)
    requires forall p | p in order :: p in params
    ensures ReplaceAll("", params, order) == ""
    decreases |order|
  {
    if order != [] {
      NothingToReplace(params, order[1..]);
    }
  }

  /**
   * In whatever order the parameters come, the path is the one in which all placeholders are replaced at
   * once: as long as no value is the variable of another parameter.
   */
  lemma AnyOrderIsSimultaneous(pieces: seq<Piece>, values: map<string, Piece>, order: seq<string>)
    requires IsTemplate(pieces) && AreValues(values) && Independent(pieces, values)
    requires IsOrder(order, values.Keys)
    ensures
      ReplaceAll(Render(pieces), Shown(values), order) == Render(Subst(pieces, values, values.Keys))
  {
    hide IsTemplate, AreValues, Independent, Subst, Render;
    InAnyOrderFromStart(pieces, "", values, order);
    NothingToReplace(Shown(values), order);
    assert Render(pieces) + "" == Render(pieces);
    assert Render(Subst(pieces, values, values.Keys)) + "" == Render(Subst(pieces, values, values.Keys));
  }

  // ---------------------------------------------------------------- when the order shows

  /** A value put inside a variable's braces does not begin like a variable. */
  lemma BracesDiffer(v: Piece, n: string, s: string, t: string)
    requires v.Ok() && !v.Hole? && BraceFree(n)
    ensures ("{" + v.Show() + "}") + s != Var(n).Show() + t
  {
    var a, b := ("{" + v.Show() + "}") + s, Var(n).Show() + t;
    if v.Var? {
      assert a[2] == '{' && b[2] != '{';
    } else {
      assert a[1] != '{' && b[1] == '{';
    }
  }

  lemma {:induction false} ReplaceAllInTwo(path: string, params: map<string, string>, xs: seq<string>, ys: seq<string>)
    requires (forall p | p in xs :: p in params) && (forall p | p in ys :: p in params)
    ensures ReplaceAll(path, params, xs + ys) == ReplaceAll(ReplaceAll(path, params, xs), params, ys)
    decreases |xs|
  {
    hide Replace;
    if xs == [] {
      assert xs + ys == ys;
    } else {
      assert (xs + ys)[1..] == xs[1..] + ys;
      ReplaceAllInTwo(Replace(path, Placeholder(xs[0]), params[xs[0]]), params, xs[1..], ys);
    }
  }

  /** A placeholder or variable stays as it is while other parameters are replaced. */
  lemma {:induction false} StaysPut(
    piece: Piece, rest: string, params: map<string, string>, order: seq<string>) returns (rest': string)
    requires piece.Ok() && !piece.Text? && piece.name !in order
    requires forall p | p in order :: p in params && BraceFree(p)
    ensures ReplaceAll(piece.Show() + rest, params, order) == piece.Show() + rest'
    decreases |order|
  {
    hide Replace, Placeholder, BraceFree;
    if order == [] {
      rest' := rest;
    } else {
      var p := order[0];
      ReplacePiece(piece, rest, p, params[p]);
      rest' := StaysPut(piece, Replace(rest, Placeholder(p), params[p]), params, order[1..]);
    }
  }

  lemma OneReplaced(piece: Piece, rest: string, params: map<string, string>, p: string) returns (rest': string)
    requires piece.Ok() && p in params && BraceFree(p)
    ensures ReplaceAll(piece.Show() + rest, params, [p]) == Image(piece, p, params[p]) + rest'
  {
    hide Replace, Placeholder;
    ReplacePiece(piece, rest, p, params[p]);
    rest' := Replace(rest, Placeholder(p), params[p]);
    assert [p][1..] == [];
  }

  /** First q, then p: the variable that p stands for is there at the end. */
  lemma VariableSurvives(rest: string, values: map<string, Piece>, p: string, q: string, others: seq<string>)
    returns (rest': string)
    requires AreValues(values) && p in values && q in values && p != q && values[p] == Var(q)
    requires q !in others && forall r | r in others :: r in values
    ensures ReplaceAll(Hole(p).Show() + rest, Shown(values), [q] + ([p] + others)) == Var(q).Show() + rest'
  {
    hide ReplaceAll, Placeholder;
    var params := Shown(values);
    assert forall r | r in others :: BraceFree(r);
    hide BraceFree;
    var rest1 := StaysPut(Hole(p), rest, params, [q]);
    var rest2 := OneReplaced(Hole(p), rest1, params, p);
    rest' := StaysPut(Var(q), rest2, params, others);
    ReplaceAllInTwo(Hole(p).Show() + rest, params, [q], [p] + others);
    ReplaceAllInTwo(Hole(p).Show() + rest1, params, [p], others);
  }

  /** First p, then q: the name of that variable is replaced inside its braces. */
  lemma VariableIsHit(rest: string, values: map<string, Piece>, p: string, q: string, others: seq<string>)
    returns (rest': string)
    requires AreValues(values) && p in values && q in values && p != q && values[p] == Var(q)
    requires p !in others && forall r | r in others :: r in values
    ensures
      ReplaceAll(Hole(p).Show() + rest, Shown(values), others + [p] + [q]) == ("{" + values[q].Show() + "}") + rest'
  {
    hide ReplaceAll, Placeholder;
    var params := Shown(values);
    assert forall r | r in others :: BraceFree(r);
    hide BraceFree;
    var rest1 := StaysPut(Hole(p), rest, params, others);
    var rest2 := OneReplaced(Hole(p), rest1, params, p);
    rest' := OneReplaced(Var(q), rest2, params, q);
    ReplaceAllInTwo(Hole(p).Show() + rest, params, others + [p], [q]);
    ReplaceAllInTwo(Hole(p).Show() + rest, params, others, [p]);
  }

  predicate Clashes(piece: Piece, values: map<string, Piece>) {
    && piece.Hole? && piece.name in values
    && var v := values[piece.name]; v.Var? && v.name in values && v.name != piece.name
  }

  /** The first placeholder whose value is the variable of another parameter. */
  lemma {:induction false} FirstClash(pieces: seq<Piece>, values: map<string, Piece>) returns (i: nat)
    requires !Independent(pieces, values)
    ensures i < |pieces| && Clashes(pieces[i], values) && Independent(pieces[..i], values)
  {
    if Clashes(pieces[0], values) {
      i := 0;
    } else {
      var j := FirstClash(pieces[1..], values);
      i := j + 1;
      assert forall k | 0 < k < i :: pieces[..i][k] == pieces[1..][..j][k - 1];
    }
  }

  lemma {:induction false} RenderConcat(a: seq<Piece>, b: seq<Piece>)
    ensures Render(a + b) == Render(a) + Render(b)
  {
    if a == [] {
      assert a + b == b;
    } else {
      assert (a + b)[1..] == a[1..] + b;
      RenderConcat(a[1..], b);
    }
  }

  lemma RenderAround(pieces: seq<Piece>, i: nat)
    requires i < |pieces|
    ensures Render(pieces) == Render(pieces[..i]) + (pieces[i].Show() + Render(pieces[i + 1..]))
  {
    assert pieces == pieces[..i] + pieces[i..] && pieces[i..][1..] == pieces[i + 1..];
    RenderConcat(pieces[..i], pieces[i..]);
  }

  /** Two orders of all parameters, alike but for where p and q stand. */
  lemma TwoOrders(keys: set<string>, p: string, q: string) returns (others: seq<string>)
    requires p in keys && q in keys && p != q
    ensures p !in others && q !in others && (forall r | r in others :: r in keys)
    ensures IsOrder([q] + ([p] + others), keys) && IsOrder(others + [p] + [q], keys)
  {
    var rest := keys - {p, q};
    others := OrderExists(rest);
    OrderStarts(others, rest, p);
    OrderStarts([p] + others, rest + {p}, q);
    OrderGrows(others, rest, p);
    OrderGrows(others + [p], rest + {p}, q);
    assert rest + {p} + {q} == keys;
  }

  /** Where a value is the variable of another parameter, two orders give two paths. */
  lemma ClashShows(pieces: seq<Piece>, values: map<string, Piece>) returns (o: seq<string>, o': seq<string>)
    requires IsTemplate(pieces) && AreValues(values) && !Independent(pieces, values)
    ensures IsOrder(o, values.Keys) && IsOrder(o', values.Keys)
    ensures ReplaceAll(Render(pieces), Shown(values), o) != ReplaceAll(Render(pieces), Shown(values), o')
  {
    var i := FirstClash(pieces, values);
    var p, q := pieces[i].name, values[pieces[i].name].name;
    var others := TwoOrders(values.Keys, p, q);
    o, o' := [q] + ([p] + others), others + [p] + [q];
    RenderAround(pieces, i);
    hide Render, ReplaceAll, Subst, Independent, IsOrder, Placeholder, IsTemplate;
    PrefixIsTemplate(pieces, i);
    ClashAfter(pieces[..i], values, p, q, others, Render(pieces[i + 1..]));
  }

  lemma PrefixIsTemplate(pieces: seq<Piece>, i: nat)
    requires IsTemplate(pieces) && i <= |pieces|
    ensures IsTemplate(pieces[..i])
  {
  }

  /** Behind pieces that come out alike in both orders, a clash does not. */
  lemma ClashAfter(
    before: seq<Piece>, values: map<string, Piece>, p: string, q: string, others: seq<string>, after: string)
    requires IsTemplate(before) && AreValues(values) && Independent(before, values)
    requires p in values && q in values && p != q && values[p] == Var(q)
    requires p !in others && q !in others && (forall r | r in others :: r in values)
    requires IsOrder([q] + ([p] + others), values.Keys) && IsOrder(others + [p] + [q], values.Keys)
    ensures
      var path := Render(before) + (Hole(p).Show() + after);
      ReplaceAll(path, Shown(values), [q] + ([p] + others)) != ReplaceAll(path, Shown(values), others + [p] + [q])
  {
    assert values[q].Ok() && !values[q].Hole? && BraceFree(q);
    hide Render, ReplaceAll, Subst, Independent, IsOrder, Placeholder, IsTemplate, AreValues, BraceFree;
    InAnyOrderFromStart(before, Hole(p).Show() + after, values, [q] + ([p] + others));
    InAnyOrderFromStart(before, Hole(p).Show() + after, values, others + [p] + [q]);
    var s := VariableSurvives(after, values, p, q, others);
    var t := VariableIsHit(after, values, p, q, others);
    BracesDiffer(values[q], q, t, s);
    SamePrefix(Render(Subst(before, values, values.Keys)), Var(q).Show() + s, ("{" + values[q].Show() + "}") + t);
  }

  lemma SamePrefix(x: string, s: string, t: string)
    requires s != t
    ensures x + s != x + t
  {
    assert (x + s)[|x|..] == s && (x + t)[|x|..] == t;
  }

  /** The order never shows exactly if no placeholder has the variable of another parameter as its value. */
  lemma OrderShowsIff(pieces: seq<Piece>, values: map<string, Piece>)
    requires IsTemplate(pieces) && AreValues(values)
    ensures
      var path, params := Render(pieces), Shown(values);
      (forall o, o' | IsOrder(o, values.Keys) && IsOrder(o', values.Keys) ::
         ReplaceAll(path, params, o) == ReplaceAll(path, params, o'))
      <==> Independent(pieces, values)
  {
    hide IsTemplate, AreValues, Independent, ReplaceAll, Render, Subst;
    if Independent(pieces, values) {
      forall o | IsOrder(o, values.Keys)
        ensures ReplaceAll(Render(pieces), Shown(values), o) == Render(Subst(pieces, values, values.Keys))
      {
        AnyOrderIsSimultaneous(pieces, values, o);
      }
    } else {
      var o, o' := ClashShows(pieces, values);
    }
  }
}
