/** The text two requests for the same indicator share, and no two others do. */
module Keys {
  import opened Outcomes
  import opened Bars
  import opened Indicators
  import opened Specs

  /** How the runtime writes a parameter's value. */
  type Spelling = (Param, real) -> string

  predicate Unbroken(s: string) {
    ':' !in s
  }

  /** The machine's numbers are told apart by their spelling when in range, and it needs no
      separator. */
  ghost predicate Faithful(spell: Spelling, floats: set<real>) {
    && (forall p, a, b :: a in floats && b in floats && InRange(p, a) && InRange(p, b) && spell(p, a) == spell(p, b) ==> a == b)
    && (forall p, a :: Unbroken(spell(p, a)))
  }

  predicate Representable(x: Instance, floats: set<real>) {
    forall name :: name in x.key.params ==> x.key.params[name] in floats
  }

  ghost predicate NamesUnbroken(registry: Registry) {
    forall name :: name in registry ==> Unbroken(name)
  }

  function Joined(parts: seq<string>): string {
    if parts == [] then ""
    else if |parts| == 1 then parts[0]
    else parts[0] + ":" + Joined(parts[1..])
  }

  function Values(spell: Spelling, params: seq<Param>, values: Params): (r: seq<string>)
    requires forall i :: 0 <= i < |params| ==> params[i].name in values
    ensures |r| == |params|
    ensures forall i :: 0 <= i < |params| ==> r[i] == spell(params[i], values[params[i].name])
  {
    seq(|params|, i requires 0 <= i < |params| => spell(params[i], values[params[i].name]))
  }

  function SourceParts(kind: Kind, source: Field): seq<string> {
    if kind.sourced && source != Close then ["source=" + FieldName(source)] else []
  }

  function Parts(spell: Spelling, x: Instance): seq<string>
    requires Made(x)
  {
    [x.key.name] + Values(spell, x.kind.params, x.key.params) + SourceParts(x.kind, x.key.source)
  }

  function KeyText(spell: Spelling, x: Instance): string
    requires Made(x)
  {
    Joined(Parts(spell, x))
  }

  /** Exactly the declared parameters, each in range, and a source only if it takes one. */
  predicate Made(x: Instance) {
    && x.key.params.Keys == Declared(x.kind.params)
    && (forall i :: 0 <= i < |x.kind.params| ==>
          x.kind.params[i].name in x.key.params && InRange(x.kind.params[i], x.key.params[x.kind.params[i].name]))
    && (!x.kind.sourced ==> x.key.source == Close)
  }

  lemma NewIsMade(registry: Registry, name: string, values: Params, source: Option<Field>)
    requires Registered(registry) && New(registry, name, values, source).Some?
    ensures From(registry, New(registry, name, values, source).value) && Made(New(registry, name, values, source).value)
  {
    var x := New(registry, name, values, source).value;
    assert WellMade(name, registry[name]);
    forall i | 0 <= i < |x.kind.params|
      ensures x.kind.params[i].name in x.key.params && InRange(x.kind.params[i], x.key.params[x.kind.params[i].name])
    {
      FilledValue(x.kind.params, values, i);
    }
  }

  /** A separator no part contains lets the parts be read back. */
  lemma {:induction false} JoinedApart(a: seq<string>, b: seq<string>)
    requires a != [] && b != [] && Joined(a) == Joined(b)
    requires (forall i :: 0 <= i < |a| ==> Unbroken(a[i])) && (forall i :: 0 <= i < |b| ==> Unbroken(b[i]))
    ensures a == b
  {
    HeadOf(a);
    HeadOf(b);
    SameHead(a[0], TailOf(a), b[0], TailOf(b));
    assert |TailOf(a)| == |TailOf(b)|;
    if |a| > 1 && |b| > 1 {
      assert TailOf(a)[1..] == Joined(a[1..]) && TailOf(b)[1..] == Joined(b[1..]);
      JoinedApart(a[1..], b[1..]);
      assert a == [a[0]] + a[1..] && b == [b[0]] + b[1..];
    }
  }

  function TailOf(parts: seq<string>): string
    requires parts != []
  {
    if |parts| == 1 then "" else ":" + Joined(parts[1..])
  }

  lemma HeadOf(parts: seq<string>)
    requires parts != []
    ensures Joined(parts) == parts[0] + TailOf(parts)
  {
  }

  lemma {:induction false} SameHead(x: string, xs: string, y: string, ys: string)
    requires x + xs == y + ys && Unbroken(x) && Unbroken(y)
    requires (xs == "" || xs[0] == ':') && (ys == "" || ys[0] == ':')
    ensures x == y && xs == ys
  {
    var whole := x + xs;
    assert forall k :: 0 <= k < |x| ==> whole[k] == x[k];
    assert forall k :: 0 <= k < |y| ==> whole[k] == y[k];
    assert xs != "" ==> whole[|x|] == xs[0];
    assert ys != "" ==> whole[|y|] == ys[0];
    assert |x| == |y|;
    assert (x + xs)[..|x|] == x && (y + ys)[..|y|] == y;
    assert (x + xs)[|x|..] == xs && (y + ys)[|y|..] == ys;
  }

  lemma PartsUnbroken(spell: Spelling, registry: Registry, x: Instance)
    requires (forall p, a :: Unbroken(spell(p, a))) && NamesUnbroken(registry) && From(registry, x) && Made(x)
    ensures forall i :: 0 <= i < |Parts(spell, x)| ==> Unbroken(Parts(spell, x)[i])
  {
  }

  lemma SameSource(kind: Kind, a: Field, b: Field)
    requires SourceParts(kind, a) == SourceParts(kind, b) && (!kind.sourced ==> a == b == Close)
    ensures a == b
  {
    if a != Close && b != Close {
      assert ("source=" + FieldName(a))[7..] == FieldName(a) && ("source=" + FieldName(b))[7..] == FieldName(b);
    }
  }

  lemma SameValues(spell: Spelling, floats: set<real>, x: Instance, y: Instance)
    requires Faithful(spell, floats) && Representable(x, floats) && Representable(y, floats)
    requires Made(x) && Made(y) && x.kind == y.kind
    requires Values(spell, x.kind.params, x.key.params) == Values(spell, y.kind.params, y.key.params)
    ensures x.key.params == y.key.params
  {
    forall name | name in x.key.params ensures x.key.params[name] == y.key.params[name] {
      NamedAreDeclared(x.kind.params, name);
      var i :| 0 <= i < |x.kind.params| && x.kind.params[i].name == name;
      assert Values(spell, x.kind.params, x.key.params)[i] == Values(spell, y.kind.params, y.key.params)[i];
    }
  }

  /** One key text, one instance: sharing units by their key never confuses two. */
  lemma KeyTextDetermines(registry: Registry, spell: Spelling, floats: set<real>, x: Instance, y: Instance)
    requires Faithful(spell, floats) && NamesUnbroken(registry)
    requires From(registry, x) && Made(x) && Representable(x, floats)
    requires From(registry, y) && Made(y) && Representable(y, floats)
    ensures KeyText(spell, x) == KeyText(spell, y) <==> x == y
  {
    if KeyText(spell, x) == KeyText(spell, y) {
      PartsUnbroken(spell, registry, x);
      PartsUnbroken(spell, registry, y);
      JoinedApart(Parts(spell, x), Parts(spell, y));
      assert Parts(spell, x)[0] == x.key.name && Parts(spell, y)[0] == y.key.name;
      var n := |x.kind.params|;
      assert Values(spell, x.kind.params, x.key.params) == Parts(spell, x)[1..n + 1];
      assert Values(spell, y.kind.params, y.key.params) == Parts(spell, y)[1..n + 1];
      SameValues(spell, floats, x, y);
      assert SourceParts(x.kind, x.key.source) == Parts(spell, x)[n + 1..];
      assert SourceParts(y.kind, y.key.source) == Parts(spell, y)[n + 1..];
      SameSource(x.kind, x.key.source, y.key.source);
    }
  }

  // ---------- units and slots ----------

  /** Whole numbers are told apart by their decimal spelling, which has no separator in it. */
  ghost predicate Decimal(digits: int -> string) {
    && (forall a, b :: digits(a) == digits(b) ==> a == b)
    && (forall a :: '|' !in digits(a) && '#' !in digits(a))
  }

  function UnitText(spell: Spelling, digits: int -> string, x: Instance, feed: int): string
    requires Made(x)
  {
    KeyText(spell, x) + "|" + digits(feed)
  }

  function SlotText(spell: Spelling, digits: int -> string, x: Instance, feed: int, output: int): string
    requires Made(x)
  {
    UnitText(spell, digits, x, feed) + "#" + digits(output)
  }

  /** The last separator splits a text in one way. */
  lemma {:induction false} SameTail(x: string, f: string, y: string, g: string, mark: char)
    requires x + [mark] + f == y + [mark] + g && mark !in f && mark !in g
    ensures x == y && f == g
  {
    var whole := x + [mark] + f;
    assert whole[|x|] == mark && whole[|y|] == mark;
    assert forall k :: |x| < k < |whole| ==> whole[k] == f[k - |x| - 1];
    assert forall k :: |y| < k < |whole| ==> whole[k] == g[k - |y| - 1];
    assert |x| == |y|;
    assert whole[..|x|] == x && whole[..|y|] == y;
    assert whole[|x| + 1..] == f && whole[|y| + 1..] == g;
  }

  /** The texts units are found by are as good as the instances and feeds themselves. */
  lemma UnitTextDetermines(registry: Registry, spell: Spelling, floats: set<real>, digits: int -> string,
                           x: Instance, feed: int, y: Instance, other: int)
    requires Faithful(spell, floats) && NamesUnbroken(registry) && Decimal(digits)
    requires From(registry, x) && Made(x) && Representable(x, floats)
    requires From(registry, y) && Made(y) && Representable(y, floats)
    ensures UnitText(spell, digits, x, feed) == UnitText(spell, digits, y, other) <==> x == y && feed == other
  {
    if UnitText(spell, digits, x, feed) == UnitText(spell, digits, y, other) {
      SameTail(KeyText(spell, x), digits(feed), KeyText(spell, y), digits(other), '|');
      KeyTextDetermines(registry, spell, floats, x, y);
    }
  }

  /** And so are the texts slots are found by. */
  lemma SlotTextDetermines(registry: Registry, spell: Spelling, floats: set<real>, digits: int -> string,
                           x: Instance, feed: int, output: int, y: Instance, other: int, line: int)
    requires Faithful(spell, floats) && NamesUnbroken(registry) && Decimal(digits)
    requires From(registry, x) && Made(x) && Representable(x, floats)
    requires From(registry, y) && Made(y) && Representable(y, floats)
    ensures SlotText(spell, digits, x, feed, output) == SlotText(spell, digits, y, other, line)
      <==> x == y && feed == other && output == line
  {
    if SlotText(spell, digits, x, feed, output) == SlotText(spell, digits, y, other, line) {
      SameTail(UnitText(spell, digits, x, feed), digits(output), UnitText(spell, digits, y, other), digits(line), '#');
      UnitTextDetermines(registry, spell, floats, digits, x, feed, y, other);
    }
  }
}
